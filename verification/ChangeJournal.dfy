/**
 The change journal (aicoder/change_journal.py) and the backup-before-mutation gate of the tool runner
 (aicoder/executor.py, _run_tool_impl) for file edits. Digests are modelled by the texts they identify;
 recovery copies are immutable.
 */
module ChangeJournal {
  import opened Wrappers
  import opened FileEdit
  import opened FileModes

  /** Typed restore metadata. `post` is the digest of what the action left, known for successful actions only. */
  datatype Restore =
    | RestoreFile(target: Path, backup: nat, pre: string, mode: Mode, post: Option<string>)
    | RemoveCreatedFile(target: Path, post: Option<string>)

  datatype Status = Available | Completed | Failed

  datatype Record = Record(restore: Restore, isError: bool, status: Status)

  datatype Refusal =
    | NotFound | NotApproved | AlreadyRolledBack
    | TargetMissing | NewerWork | BackupMissing | HashMismatch

  /** Reply of the gated tool: the edit may not even start when no recovery copy can be made. */
  datatype ToolReply = Blocked | Ran(reply: Reply)

  /** Files, recovery copies and journal records; a record's id is its position. */
  datatype Store = Store(files: Files, backups: seq<string>, records: seq<Record>)

  const FALLBACK_MODE: Mode := 0x180

  // ---- specification ----

  /** Snapshot of a target before a change; None when it is no regular file or the backup store cannot be written. */
  function Prepared(files: Files, backups: seq<string>, target: Path, canBackup: bool): Option<(Restore, seq<string>)> {
    if !canBackup then None
    else if target !in files then Some((RemoveCreatedFile(target, None), backups))
    else match files[target]
      case Directory => None
      case Regular(raw, mode) => Some((RestoreFile(target, |backups|, raw, Permissions(mode), None), backups + [raw]))
  }

  function Finalized(files: Files, restore: Restore): Restore {
    if restore.target in files && files[restore.target].Regular?
    then restore.(post := Some(files[restore.target].raw))
    else restore
  }

  /** What the disk allows around an edit: writing the recovery copy, and saving the journal record. */
  datatype Disk = Disk(canBackup: bool, canRecord: bool)

  const WORKING: Disk := Disk(true, true)

  /** One gated file edit. */
  function Journaled(host: Host, s: Store, edit: Edit, disk: Disk): (ToolReply, Store) {
    if edit.target.None? || edit.target.value == "" then (Blocked, s) else
    match Prepared(s.files, s.backups, edit.target.value, disk.canBackup)
    case None => (Blocked, s)
    case Some((restore, backups)) =>
      var (reply, files) := Edited(host, s.files, edit);
      var final := if reply.Updated? then Finalized(files, restore) else restore;
      var records := if disk.canRecord then s.records + [Record(final, reply.Refused?, Available)] else s.records;
      (Ran(reply), Store(files, backups, records))
  }

  /** The check against newer work: without a digest it only asks for a regular file. */
  function CheckCurrent(files: Files, target: Path, expected: Option<string>): Option<Refusal> {
    if target !in files || !files[target].Regular? then Some(TargetMissing)
    else if expected.Some? && files[target].raw != expected.value then Some(NewerWork)
    else None
  }

  function RestoredMode(mode: Mode): Mode {
    if mode == 0 then FALLBACK_MODE else mode
  }

  /** Apply one restore: an error, if any, and the files afterwards. */
  function Applied(files: Files, backups: seq<string>, restore: Restore): (Option<Refusal>, Files) {
    var refused := CheckCurrent(files, restore.target, restore.post);
    if refused.Some? then (refused, files) else
    match restore
    case RestoreFile(target, backup, pre, mode, _) =>
      if backup >= |backups| then (Some(BackupMissing), files)
      else
        var after := files[target := Regular(backups[backup], RestoredMode(mode))];
        (if backups[backup] != pre then Some(HashMismatch) else None, after)
    case RemoveCreatedFile(target, _) => (None, files - {target})
  }

  /** One rollback request: None when it completed, and the store afterwards. */
  function RolledBack(s: Store, id: nat, approved: bool): (Option<Refusal>, Store) {
    if id >= |s.records| then (Some(NotFound), s)
    else if !approved then (Some(NotApproved), s)
    else if s.records[id].status == Completed then (Some(AlreadyRolledBack), s)
    else
      var (refused, files) := Applied(s.files, s.backups, s.records[id].restore);
      var status := if refused.None? then Completed else Failed;
      (refused, Store(files, s.backups, s.records[id := s.records[id].(status := status)]))
  }

  // ---- the journal object ----

  class Journal {
    const fs: FileSystem
    var backups: seq<string>
    var records: seq<Record>

    constructor (fs: FileSystem)
      ensures this.fs == fs && backups == [] && records == []
    {
      this.fs := fs;
      backups, records := [], [];
    }

    ghost function State(): Store
      reads this, fs
    {
      Store(fs.files, backups, records)
    }

    /** `prepare_file_change`: copy an existing file, or note that the target is absent. */
    method PrepareFileChange(target: Path, canBackup: bool) returns (restore: Option<Restore>)
      modifies this`backups
      ensures match Prepared(fs.files, old(backups), target, canBackup)
              case None => restore.None? && backups == old(backups)
              case Some((r, copies)) => restore == Some(r) && backups == copies
    {
      if !canBackup { return None; }
      if target !in fs.files { return Some(RemoveCreatedFile(target, None)); }
      if !fs.files[target].Regular? { return None; }
      var copy := fs.files[target].raw;
      backups := backups + [copy];
      return Some(RestoreFile(target, |backups| - 1, copy, Permissions(fs.files[target].mode), None));
    }

    /** The gate around file_edit: no recovery copy, no edit; afterwards the outcome is recorded. */
    method RunGatedEdit(host: Host, edit: Edit, disk: Disk) returns (reply: ToolReply)
      modifies this, fs
      ensures (reply, State()) == Journaled(host, old(State()), edit, disk)
      ensures reply == Blocked <==>
              || !disk.canBackup || edit.target.None? || edit.target.value == ""
              || (edit.target.value in old(fs.files) && old(fs.files)[edit.target.value].Directory?)
      ensures reply == Blocked ==> State() == old(State())
      ensures reply.Ran? ==> (reply.reply, fs.files) == Edited(host, old(fs.files), edit)
      ensures reply.Ran? && disk.canRecord ==>
                |records| == |old(records)| + 1 && records[..|old(records)|] == old(records)
                && records[|old(records)|].isError == reply.reply.Refused? && records[|old(records)|].status == Available
      ensures !disk.canRecord ==> records == old(records)
    {
      if edit.target.None? || edit.target.value == "" { return Blocked; }
      var prepared := PrepareFileChange(edit.target.value, disk.canBackup);
      if prepared.None? { return Blocked; }
      var restore := prepared.value;
      var inner := fs.RunFileEdit(host, edit);
      if inner.Updated? { restore := Finalized(fs.files, restore); }
      if disk.canRecord { records := records + [Record(restore, inner.Refused?, Available)]; }
      return Ran(inner);
    }

    /** `rollback`: apply the typed restore of one record, once. */
    method Rollback(id: nat, approved: bool) returns (refused: Option<Refusal>)
      modifies this, fs
      ensures (refused, State()) == RolledBack(old(State()), id, approved)
      ensures !approved ==> refused.Some? && State() == old(State())
      ensures refused == Some(NotFound) <==> id >= |old(records)|
      ensures refused == Some(NotApproved) <==> id < |old(records)| && !approved
      ensures refused == Some(AlreadyRolledBack) <==>
              id < |old(records)| && approved && old(records)[id].status == Completed
      ensures refused in {Some(NotFound), Some(NotApproved), Some(AlreadyRolledBack)} ==> State() == old(State())
      ensures id < |old(records)| && approved && old(records)[id].status != Completed ==>
                records[id].status == if refused.None? then Completed else Failed
    {
      if id >= |records| { return Some(NotFound); }
      if !approved { return Some(NotApproved); }
      if records[id].status == Completed { return Some(AlreadyRolledBack); }
      var restore := records[id].restore;
      var target := restore.target;
      refused := CheckCurrent(fs.files, target, restore.post);
      if refused.None? {
        match restore
        case RestoreFile(_, backup, pre, mode, _) =>
          if backup >= |backups| {
            refused := Some(BackupMissing);
          } else {
            fs.files := fs.files[target := Regular(backups[backup], RestoredMode(mode))];
            if fs.files[target].raw != pre { refused := Some(HashMismatch); }
          }
        case RemoveCreatedFile(_, _) =>
          fs.files := fs.files - {target};
      }
      var status := if refused.None? then Completed else Failed;
      records := records[id := records[id].(status := status)];
    }
  }

  // ---- one edit and its rollback ----

  /** Every recovery copy a record points to exists and is what the record says it is. */
  predicate Faithful(s: Store) {
    forall k | 0 <= k < |s.records| ::
      var r := s.records[k].restore;
      r.RestoreFile? ==> r.backup < |s.backups| && s.backups[r.backup] == r.pre
  }

  lemma {:induction false} FaithfulIsKept(host: Host, s: Store, edit: Edit, disk: Disk, id: nat, approved: bool)
    requires Faithful(s)
    ensures Faithful(Journaled(host, s, edit, disk).1)
    ensures Faithful(RolledBack(s, id, approved).1)
  {
  }

  /** No file is changed before its old text is in the store of recovery copies. */
  lemma {:induction false} ChangedFilesAreBackedUp(host: Host, s: Store, edit: Edit, disk: Disk, path: Path)
    requires path in s.files && s.files[path].Regular?
    ensures var after := Journaled(host, s, edit, disk).1;
            path in after.files && (after.files[path] != s.files[path] ==> s.files[path].raw in after.backups)
  {
    var after := Journaled(host, s, edit, disk).1;
    if edit.target == Some(path) && after.files != s.files {
      assert after.backups[|s.backups|] == s.files[path].raw;
    }
  }

  /** What a recorded success is. */
  predicate Succeeds(host: Host, s: Store, edit: Edit) {
    var reply := Journaled(host, s, edit, WORKING).0;
    reply.Ran? && reply.reply.Updated?
  }

  /** The target was there before with the empty mode, or with a special bit: such a mode does not come back. */
  predicate HadUnusualMode(files: Files, path: Path) {
    path in files && files[path].Regular? && (files[path].mode == 0 || IsSpecial(files[path].mode))
  }

  /** The mode an edit and its rollback leave. */
  function ModeBack(mode: Mode): Mode {
    RestoredMode(Permissions(mode))
  }

  lemma ModeComesBackExactlyWhen(mode: Mode)
    ensures ModeBack(mode) == mode <==> mode != 0 && !IsSpecial(mode)
    ensures ModeBack(Permissions(mode)) == ModeBack(mode)
    ensures ModeBack(mode) == if mode & 0x1FF == 0 then 0x180 else mode & 0x1FF
  {
  }

  /** The files with the modes that come back for `paths`. */
  function WithModes(files: Files, paths: set<Path>): Files {
    map p | p in files ::
      if p in paths && files[p].Regular? then Regular(files[p].raw, ModeBack(files[p].mode)) else files[p]
  }

  lemma SameModesExactlyWhen(files: Files, paths: set<Path>)
    ensures WithModes(files, paths) == files <==> forall p | p in paths :: !HadUnusualMode(files, p)
  {
    hide ModeBack, IsSpecial;
    var back := WithModes(files, paths);
    forall p | p in paths && p in files && files[p].Regular?
      ensures back[p] == files[p] <==> !HadUnusualMode(files, p)
    {
      ModeComesBackExactlyWhen(files[p].mode);
    }
    if p :| p in paths && HadUnusualMode(files, p) {
      assert back[p] != files[p];
    }
  }

  /**
   In any later store that still has the record and the copies, and whose target still holds the text the edit left, the
   rollback completes, and the files are those of before but for the modes that do not come back for it and
   for `paths`.
   */
  lemma {:induction false} RollbackUndoesOne(host: Host, s: Store, edit: Edit, later: Store, paths: set<Path>)
    requires Succeeds(host, s, edit)
    requires var after := Journaled(host, s, edit, WORKING).1;
             later.files == WithModes(after.files, paths) && after.backups <= later.backups && after.records <= later.records
    ensures edit.target.Some? && RolledBack(later, |s.records|, true).0.None?
    ensures RolledBack(later, |s.records|, true).1.files == WithModes(s.files, {edit.target.value} + paths)
  {
    hide RestoredMode, Permissions, ModeBack, IsSpecial;
    var path := edit.target.value;
    var after := Journaled(host, s, edit, WORKING).1;
    SuccessChangesExactlyTheTarget(host, s.files, edit);
    assert later.records[|s.records|] == after.records[|s.records|];
    ModesAgain();
    if path in s.files {
      assert later.backups[|s.backups|] == after.backups[|s.backups|] == s.files[path].raw;
    }
  }

  lemma ModesAgain()
    ensures forall m: Mode :: ModeBack(m) == RestoredMode(Permissions(m))
  {
  }

  /**
   Rolling one edit back right away leaves the files as before the edit, exactly unless the target had the empty mode or
   a special mode bit.
   */
  lemma {:induction false} RollbackUndoesTheEdit(host: Host, s: Store, edit: Edit, later: Store)
    requires Succeeds(host, s, edit)
    requires var after := Journaled(host, s, edit, WORKING).1;
             later.files == after.files && after.backups <= later.backups && after.records <= later.records
    ensures RolledBack(later, |s.records|, true).0.None?
    ensures RolledBack(later, |s.records|, true).1.files == s.files <==> !HadUnusualMode(s.files, edit.target.value)
  {
    hide Journaled, RolledBack, Succeeds, HadUnusualMode;
    var after := Journaled(host, s, edit, WORKING).1;
    SameModesExactlyWhen(after.files, {});
    RollbackUndoesOne(host, s, edit, later, {});
    assert {edit.target.value} + {} == {edit.target.value};
    SameModesExactlyWhen(s.files, {edit.target.value});
  }

  /**
   Rolling back a recorded success, in any store: it completes exactly when the target still holds the text the
   action left, and otherwise changes no file.
   */
  lemma {:induction false} NewerWorkIsNeverOverwritten(host: Host, s: Store, edit: Edit, later: Store)
    requires Succeeds(host, s, edit) && Faithful(later)
    requires |s.records| < |later.records|
    requires later.records[|s.records|] == Journaled(host, s, edit, WORKING).1.records[|s.records|]
    ensures var path, left := edit.target.value, Journaled(host, s, edit, WORKING).1.files[edit.target.value];
            var (refused, after) := RolledBack(later, |s.records|, true);
            && (refused.None? <==> path in later.files && later.files[path].Regular? && later.files[path].raw == left.raw)
            && (refused.Some? ==> after.files == later.files && after.records[|s.records|].status == Failed)
  {
    SuccessChangesExactlyTheTarget(host, s.files, edit);
  }

  /**
   The record of a refused edit carries no digest: its rollback goes ahead over any regular file now at the target.
   */
  lemma {:induction false} ErrorRecordsSkipTheNewerWorkCheck(host: Host, s: Store, edit: Edit, later: Store)
    requires Journaled(host, s, edit, WORKING).0.Ran? && !Succeeds(host, s, edit) && Faithful(later)
    requires |s.records| < |later.records|
    requires later.records[|s.records|] == Journaled(host, s, edit, WORKING).1.records[|s.records|]
    ensures var path := edit.target.value;
            var (refused, after) := RolledBack(later, |s.records|, true);
            && (refused.None? <==> path in later.files && later.files[path].Regular?)
            && (refused.None? ==>
                  if path in s.files then path in after.files && after.files[path].raw == s.files[path].raw
                  else path !in after.files)
  {
  }

  /**
   One approved rollback of an open record, outcome by outcome. A copy that is not what the record says is noticed only
   after it replaced the target.
   */
  lemma OpenRecordsRollBack(s: Store, id: nat)
    requires id < |s.records| && s.records[id].status != Completed
    ensures var restore, (refused, after) := s.records[id].restore, RolledBack(s, id, true);
            var target := restore.target;
            && after.backups == s.backups && |after.records| == |s.records|
            && (forall k | 0 <= k < |s.records| && k != id :: after.records[k] == s.records[k])
            && after.records[id].restore == restore
            && (after.records[id].status == if refused.None? then Completed else Failed)
            && (refused == Some(TargetMissing) <==> target !in s.files || !s.files[target].Regular?)
            && (refused == Some(NewerWork) <==>
                  target in s.files && s.files[target].Regular? && restore.post.Some? && restore.post.value != s.files[target].raw)
            && (refused in {Some(TargetMissing), Some(NewerWork), Some(BackupMissing)} ==> after.files == s.files)
            && (refused.None? && restore.RemoveCreatedFile? ==> after.files == s.files - {target})
            && (restore.RestoreFile? && refused in {None, Some(HashMismatch)} ==>
                  && restore.backup < |s.backups|
                  && target in after.files && after.files[target].Regular?
                  && after.files[target].raw == s.backups[restore.backup]
                  && after.files[target].mode == (if restore.mode == 0 then 0x180 else restore.mode)
                  && after.files - {target} == s.files - {target}
                  && (refused.None? <==> s.backups[restore.backup] == restore.pre))
  {
  }

  // ---- sequences of edits ----

  function AfterAll(host: Host, s: Store, edits: seq<Edit>): Store
    decreases |edits|
  {
    if edits == [] then s else AfterAll(host, Journaled(host, s, edits[0], WORKING).1, edits[1..])
  }

  predicate AllSucceed(host: Host, s: Store, edits: seq<Edit>)
    decreases |edits|
  {
    edits == [] || (Succeeds(host, s, edits[0]) && AllSucceed(host, Journaled(host, s, edits[0], WORKING).1, edits[1..]))
  }

  /** Roll back the records `low` up to `high`, newest first. */
  function UndoneDownTo(s: Store, low: nat, high: nat): Store
    decreases high
  {
    if high <= low then s else UndoneDownTo(RolledBack(s, high - 1, true).1, low, high - 1)
  }

  /** The targets of some edits. */
  function Targets(edits: seq<Edit>): set<Path>
    decreases |edits|
  {
    if edits == [] then {} else (if edits[0].target.Some? then {edits[0].target.value} else {}) + Targets(edits[1..])
  }

  lemma {:induction false} AfterAllExtends(host: Host, s: Store, edits: seq<Edit>)
    requires AllSucceed(host, s, edits)
    ensures var end := AfterAll(host, s, edits);
            && s.backups <= end.backups && s.records <= end.records && |end.records| == |s.records| + |edits|
    decreases |edits|
  {
    if edits != [] {
      AfterAllExtends(host, Journaled(host, s, edits[0], WORKING).1, edits[1..]);
    }
  }

  /** Undoing the last edits first and the first one afterwards is undoing them all. */
  lemma {:induction false} UndoneInTwoParts(s: Store, low: nat, high: nat)
    requires low < high
    ensures UndoneDownTo(s, low, high) == RolledBack(UndoneDownTo(s, low + 1, high), low, true).1
    decreases high
  {
    if high > low + 1 {
      UndoneInTwoParts(RolledBack(s, high - 1, true).1, low, high - 1);
    }
  }

  lemma {:induction false} UndoneKeepsOlderRecords(s: Store, low: nat, high: nat)
    requires low <= high <= |s.records|
    ensures var end := UndoneDownTo(s, low, high);
            end.backups == s.backups && |end.records| == |s.records| && end.records[..low] == s.records[..low]
    decreases high
  {
    if low < high {
      UndoneKeepsOlderRecords(RolledBack(s, high - 1, true).1, low, high - 1);
    }
  }

  lemma JournaledAddsOneRecord(host: Host, s: Store, edit: Edit)
    requires Succeeds(host, s, edit)
    ensures edit.target.Some? && |Journaled(host, s, edit, WORKING).1.records| == |s.records| + 1
  {
  }

  /** Undoing a sequence of successful edits in reverse order gives back every file, with the modes that come back. */
  lemma {:induction false} ReverseRollbackRestoresContents(host: Host, s: Store, edits: seq<Edit>)
    requires AllSucceed(host, s, edits)
    ensures UndoneDownTo(AfterAll(host, s, edits), |s.records|, |s.records| + |edits|).files == WithModes(s.files, Targets(edits))
    decreases |edits|
  {
    hide Journaled, RolledBack, Succeeds, WithModes;
    if edits == [] {
      NoModesChanged(s.files);
    } else {
      var first := Journaled(host, s, edits[0], WORKING).1;
      var end := AfterAll(host, s, edits);
      var k := |s.records|;
      JournaledAddsOneRecord(host, s, edits[0]);
      ReverseRollbackRestoresContents(host, first, edits[1..]);
      AfterAllExtends(host, first, edits[1..]);
      var rest := UndoneDownTo(end, k + 1, k + |edits|);
      UndoneKeepsOlderRecords(end, k + 1, k + |edits|);
      UndoneInTwoParts(end, k, k + |edits|);
      assert rest.records[..k + 1] == end.records[..k + 1] == first.records;
      RollbackUndoesOne(host, s, edits[0], rest, Targets(edits[1..]));
    }
  }

  lemma NoModesChanged(files: Files)
    ensures WithModes(files, {}) == files
  {
  }

  /**
   Any sequence of successful journaled edits is undone by rolling its records back in reverse order, every content and
   mode, exactly unless one of its targets had the empty mode or a special mode bit.
   */
  lemma ReverseRollbackRestoresEverything(host: Host, s: Store, edits: seq<Edit>)
    requires AllSucceed(host, s, edits)
    ensures UndoneDownTo(AfterAll(host, s, edits), |s.records|, |s.records| + |edits|).files == s.files
            <==> forall p | p in Targets(edits) :: !HadUnusualMode(s.files, p)
  {
    hide AfterAll, UndoneDownTo, AllSucceed, WithModes, HadUnusualMode;
    ReverseRollbackRestoresContents(host, s, edits);
    SameModesExactlyWhen(s.files, Targets(edits));
  }

  /** A set-user-id program of mode 4755 comes back from any edit and its rollback with mode 0755. */
  lemma RollbackLosesSpecialBits(host: Host, s: Store, edit: Edit, raw: string)
    requires Succeeds(host, s, edit) && edit.target.value in s.files
    requires s.files[edit.target.value] == Regular(raw, 0x9ED)
    ensures RolledBack(Journaled(host, s, edit, WORKING).1, |s.records|, true)
            .1.files == s.files[edit.target.value := Regular(raw, 0x1ED)]
  {
    hide Journaled, RolledBack, Succeeds;
    JournaledAddsOneRecord(host, s, edit);
    var path := edit.target.value;
    var after := Journaled(host, s, edit, WORKING).1;
    NoModesChanged(after.files);
    RollbackUndoesOne(host, s, edit, after, {});
    assert ModeBack(0x9ED) == 0x1ED;
    assert WithModes(s.files, {path} + {}) == s.files[path := Regular(raw, 0x1ED)];
  }

  // ---- whole journal histories ----

  datatype Action = EditAction(edit: Edit, disk: Disk) | RollbackAction(id: nat, approved: bool)

  function After(host: Host, s: Store, a: Action): Store {
    match a
    case EditAction(edit, disk) => Journaled(host, s, edit, disk).1
    case RollbackAction(id, approved) => RolledBack(s, id, approved).1
  }

  /** How often record `id` is rolled back successfully in a history. */
  function Completions(host: Host, s: Store, actions: seq<Action>, id: nat): nat
    decreases |actions|
  {
    if actions == [] then 0
    else
      var a := actions[0];
      (if a.RollbackAction? && a.id == id && RolledBack(s, id, a.approved).0.None? then 1 else 0)
      + Completions(host, After(host, s, a), actions[1..], id)
  }

  lemma {:induction false} NoCompletionAfterCompletion(host: Host, s: Store, actions: seq<Action>, id: nat)
    requires id < |s.records| && s.records[id].status == Completed
    ensures Completions(host, s, actions, id) == 0
    decreases |actions|
  {
    if actions != [] {
      NoCompletionAfterCompletion(host, After(host, s, actions[0]), actions[1..], id);
    }
  }

  /** Over any history of edits and rollbacks, no record is rolled back successfully twice. */
  lemma {:induction false} RolledBackAtMostOnce(host: Host, s: Store, actions: seq<Action>, id: nat)
    ensures Completions(host, s, actions, id) <= 1
    decreases |actions|
  {
    if actions != [] {
      var a := actions[0];
      var next := After(host, s, a);
      if a.RollbackAction? && a.id == id && RolledBack(s, id, a.approved).0.None? {
        NoCompletionAfterCompletion(host, next, actions[1..], id);
      } else {
        RolledBackAtMostOnce(host, next, actions[1..], id);
      }
    }
  }
}
