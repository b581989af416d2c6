/**
 The file_edit tool (aicoder/executor.py, run_file_edit, _rejects_broken_python, atomic_write_text).
 A file holds its raw text; reading translates line ends the way Python's text mode does, writing does not.
 */
module FileEdit {
  import opened Wrappers
  import opened FileModes

  type Path = string

  datatype Node = Regular(raw: string, mode: Mode) | Directory

  type Files = map<Path, Node>

  /** What the host decides about a path or a text: UTF-8 validity, the suffix test and Python's parser. */
  datatype Host = Host(decodes: string -> bool, isPython: Path -> bool, parses: string -> bool)

  /** Arguments that are missing or no strings are None; a path outside the workspace counts as missing. */
  datatype Operation =
    | Create(content: Option<string>)
    | Write(content: Option<string>)
    | Append(content: Option<string>)
    | Replace(oldText: Option<string>, newText: Option<string>)
    | Unknown

  datatype Edit = Edit(target: Option<Path>, operation: Operation, allowInvalidSyntax: bool)

  datatype Reason =
    | PathRequired | NotARegularFile | Unreadable | AlreadyExists | ContentRequired | Missing | OldTextRequired
    | NotExactlyOnce(matched: nat) | UnknownOperation | NoEffect | BrokenPython | Unwritable | ReadBackMismatch

  datatype Reply = Updated(chars: nat) | Refused(reason: Reason)

  /** Mode of a file created through a private temporary file. */
  const NEW_FILE_MODE: Mode := 0x180

  // ---- text ----

  /** Universal newlines: what text-mode reading returns for a raw text. */
  function Universal(raw: string): string {
    if raw == "" then ""
    else if raw[0] == '\r' then
      "\n" + Universal(if |raw| > 1 && raw[1] == '\n' then raw[2..] else raw[1..])
    else [raw[0]] + Universal(raw[1..])
  }

  predicate HasReturn(s: string) {
    '\r' in s
  }

  lemma {:induction false} UniversalHasNoReturn(raw: string)
    ensures !HasReturn(Universal(raw))
  {
    if raw != "" {
      if raw[0] == '\r' {
        UniversalHasNoReturn(if |raw| > 1 && raw[1] == '\n' then raw[2..] else raw[1..]);
      } else {
        UniversalHasNoReturn(raw[1..]);
      }
    }
  }

  /** Reading gives back the raw text exactly when it holds no carriage return. */
  lemma {:induction false} ReadsBackUnchanged(raw: string)
    ensures Universal(raw) == raw <==> !HasReturn(raw)
  {
    UniversalHasNoReturn(raw);
    if !HasReturn(raw) && raw != "" {
      assert raw[0] in raw;
      ReadsBackUnchanged(raw[1..]);
    }
  }

  /** Texts are read part by part, unless a cut goes through a DOS line end. */
  lemma {:induction false} ReadInParts(a: string, b: string)
    requires a == "" || b == "" || a[|a| - 1] != '\r' || b[0] != '\n'
    ensures Universal(a + b) == Universal(a) + Universal(b)
  {
    hide Universal;
    if a == "" {
      assert a + b == b;
      NothingIsRead();
    } else if b == "" {
      assert a + b == a;
      NothingIsRead();
    } else {
      var n := if a[0] == '\r' && |a| > 1 && a[1] == '\n' then 2 else 1;
      var first := [if a[0] == '\r' then '\n' else a[0]];
      assert (a + b)[0] == a[0] && (a + b)[n..] == a[n..] + b;
      assert |a| > 1 ==> (a + b)[1] == a[1];
      ReadInParts(a[n..], b);
      OneRead(a, n, first);
      OneRead(a + b, n, first);
      assert first + (Universal(a[n..]) + Universal(b)) == first + Universal(a[n..]) + Universal(b);
    }
  }

  lemma NothingIsRead()
    ensures Universal("") == ""
  {
  }

  lemma OneRead(s: string, n: nat, first: string)
    requires s != "" && n == (if s[0] == '\r' && |s| > 1 && s[1] == '\n' then 2 else 1)
    requires first == [if s[0] == '\r' then '\n' else s[0]]
    ensures Universal(s) == first + Universal(s[n..])
  {
  }

  /** A DOS line end and a lone carriage return both read as one newline, whatever is around them. */
  lemma {:induction false} LineEndsAreTranslated(a: string, b: string)
    ensures Universal(a + ("\r\n" + b)) == Universal(a) + ("\n" + Universal(b))
    ensures (b == "" || b[0] != '\n') ==> Universal(a + ("\r" + b)) == Universal(a) + ("\n" + Universal(b))
  {
    ReadInParts(a, "\r\n" + b);
    ReadInParts(a, "\r" + b);
    assert ("\r\n" + b)[2..] == b && ("\r" + b)[1..] == b;
  }

  /** `str.find`. */
  function Find(text: string, part: string): (r: Option<nat>)
    ensures r.Some? ==> r.value + |part| <= |text|
  {
    if |text| < |part| then None
    else if text[..|part|] == part then Some(0)
    else if text == "" then None
    else match Find(text[1..], part)
      case Some(i) => Some(i + 1)
      case None => None
  }

  /** `str.count`: occurrences that do not overlap, counted from the left. */
  function Count(text: string, part: string): nat
    requires part != ""
  {
    match Find(text, part)
    case None => 0
    case Some(i) => 1 + Count(text[i + |part|..], part)
  }

  /** `str.replace(part, other, 1)`. */
  function ReplaceFirst(text: string, part: string, other: string): string {
    match Find(text, part)
    case None => text
    case Some(i) => text[..i] + other + text[i + |part|..]
  }

  predicate OccursAt(text: string, part: string, i: int) {
    0 <= i && i + |part| <= |text| && text[i..i + |part|] == part
  }

  lemma {:induction false} FindIsLeftmost(text: string, part: string)
    ensures match Find(text, part)
            case None => forall j :: !OccursAt(text, part, j)
            case Some(i) => OccursAt(text, part, i) && forall j | j < i :: !OccursAt(text, part, j)
  {
    if |text| >= |part| && text[..|part|] != part && text != "" {
      FindIsLeftmost(text[1..], part);
      forall j | OccursAt(text, part, j)
        ensures j > 0 && OccursAt(text[1..], part, j - 1)
      {
        assert text[0..|part|] == text[..|part|];
        assert text[1..][j - 1..j - 1 + |part|] == text[j..j + |part|];
      }
      match Find(text[1..], part)
      case Some(i) => assert text[i + 1..i + 1 + |part|] == text[1..][i..i + |part|];
      case None =>
    }
  }

  /**
   What the check for exactly one match means: there is a leftmost occurrence and none starts after its end.
   Occurrences that overlap it do not count.
   */
  lemma {:induction false} ExactlyOnceMeans(text: string, part: string)
    requires part != ""
    ensures Count(text, part) == 1 <==>
            exists i :: OccursAt(text, part, i)
                     && (forall j | j < i :: !OccursAt(text, part, j))
                     && (forall j | i + |part| <= j :: !OccursAt(text, part, j))
  {
    hide Find, Count, OccursAt;
    CountsOnce(text, part);
    FindIsLeftmost(text, part);
    if Find(text, part).Some? {
      var i := Find(text, part).value;
      var rest := text[i + |part|..];
      FindIsLeftmost(rest, part);
      forall j | i + |part| <= j
        ensures OccursAt(text, part, j) <==> OccursAt(rest, part, j - i - |part|)
      {
        OccursInRest(text, part, i + |part|, j);
      }
      if Find(rest, part).Some? {
        NoneBeforeTheStart(rest, part, Find(rest, part).value);
        assert OccursAt(text, part, Find(rest, part).value + i + |part|);
      } else {
        assert forall j | i + |part| <= j :: !OccursAt(text, part, j);
      }
    }
  }

  lemma CountsOnce(text: string, part: string)
    requires part != ""
    ensures Count(text, part) == 1 <==>
            Find(text, part).Some? && Find(text[Find(text, part).value + |part|..], part).None?
  {
    hide Find, Count;
    CountStep(text, part);
    if Find(text, part).Some? { CountStep(text[Find(text, part).value + |part|..], part); }
  }

  lemma CountStep(text: string, part: string)
    requires part != ""
    ensures Count(text, part) == if Find(text, part).None? then 0
                                 else 1 + Count(text[Find(text, part).value + |part|..], part)
  {
    hide Find;
  }

  lemma OccursInRest(text: string, part: string, start: nat, j: int)
    requires start <= |text| && start <= j
    ensures OccursAt(text, part, j) <==> OccursAt(text[start..], part, j - start)
  {
    if j + |part| <= |text| { assert text[start..][j - start..j - start + |part|] == text[j..j + |part|]; }
  }

  lemma NoneBeforeTheStart(text: string, part: string, i: int)
    requires OccursAt(text, part, i)
    ensures i >= 0
  {
  }

  /** An accepted replacement is not always the only possible one: "aa" is accepted in "aaa", where it occurs twice. */
  lemma OverlappingMatchesAreAccepted()
    ensures Count("aaa", "aa") == 1 && OccursAt("aaa", "aa", 0) && OccursAt("aaa", "aa", 1)
  {
    assert "aaa"[0..2] == "aa" && "aaa"[1..3] == "aa" && "aaa"[..2] == "aa";
    assert "aaa"[2..] == "a";
  }

  // ---- one edit ----

  /** The text an edit asks to store, given the text read before, or the reason to refuse. */
  function Pending(operation: Operation, previous: Option<string>): Result<string, Reason> {
    match operation
    case Create(content) =>
      if previous.Some? then Failure(AlreadyExists)
      else if content.None? then Failure(ContentRequired)
      else Success(content.value)
    case Write(content) =>
      if content.None? then Failure(ContentRequired) else Success(content.value)
    case Append(content) =>
      if content.None? then Failure(ContentRequired)
      else Success((if previous.Some? then previous.value else "") + content.value)
    case Replace(oldText, newText) =>
      if previous.None? then Failure(Missing)
      else if oldText.None? || oldText.value == "" || newText.None? then Failure(OldTextRequired)
      else
        var n := Count(previous.value, oldText.value);
        if n != 1 then Failure(NotExactlyOnce(n))
        else Success(ReplaceFirst(previous.value, oldText.value, newText.value))
    case Unknown => Failure(UnknownOperation)
  }

  /** `_rejects_broken_python`: only a step from valid or absent to invalid is refused. */
  predicate RejectsBrokenPython(host: Host, path: Path, previous: Option<string>, updated: string, allowInvalid: bool) {
    && host.isPython(path) && !allowInvalid && !host.parses(updated)
    && (previous.Some? ==> host.parses(previous.value))
  }

  /** The text read before the edit, if there is a file. */
  function Previous(files: Files, path: Path): Option<string> {
    if path in files && files[path].Regular? then Some(Universal(files[path].raw)) else None
  }

  /** Every check before the write: the text that will be written, or the refusal. */
  function Planned(host: Host, files: Files, edit: Edit): Result<string, Reason> {
    if edit.target.None? || edit.target.value == "" then Failure(PathRequired) else
    var path := edit.target.value;
    if path in files && files[path].Directory? then Failure(NotARegularFile)
    else if path in files && !host.decodes(files[path].raw) then Failure(Unreadable)
    else
      var previous := Previous(files, path);
      match Pending(edit.operation, previous)
      case Failure(reason) => Failure(reason)
      case Success(pending) =>
        if previous == Some(pending) then Failure(NoEffect)
        else if RejectsBrokenPython(host, path, previous, pending, edit.allowInvalidSyntax) then Failure(BrokenPython)
        else if !host.decodes(pending) then Failure(Unwritable)
        else Success(pending)
  }

  /** Mode an atomic write leaves: the permission bits of the previous one, or the mode of the temporary file. */
  function ModeFor(files: Files, path: Path): Mode {
    if path in files && files[path].Regular? then Permissions(files[path].mode) else NEW_FILE_MODE
  }

  /** The outcome of one edit: its reply and the files afterwards. */
  function Edited(host: Host, files: Files, edit: Edit): (Reply, Files) {
    match Planned(host, files, edit)
    case Failure(reason) => (Refused(reason), files)
    case Success(pending) =>
      var path := edit.target.value;
      var mode := ModeFor(files, path);
      if Universal(pending) == pending then
        (Updated(|pending|), files[path := Regular(pending, mode)])
      else
        (Refused(ReadBackMismatch),
         match Previous(files, path)
         case None => files
         case Some(previous) => files[path := Regular(previous, mode)])
  }

  /** The files of the host, changed in place by the tools. */
  class FileSystem {
    var files: Files

    constructor (files: Files)
      ensures this.files == files
    {
      this.files := files;
    }

    /** Write through a temporary file that replaces the target. */
    method AtomicWrite(path: Path, content: string)
      requires path in files ==> files[path].Regular?
      modifies this
      ensures files == old(files)[path := Regular(content, ModeFor(old(files), path))]
    {
      var previousMode := if path in files then Some(Permissions(files[path].mode)) else None;
      var mode := NEW_FILE_MODE;
      if previousMode.Some? { mode := previousMode.value; }
      files := files[path := Regular(content, mode)];
    }

    /** `run_file_edit`: check, write, read back, and put the previous text back on a mismatch. */
    method RunFileEdit(host: Host, edit: Edit) returns (reply: Reply)
      modifies this
      ensures (reply, files) == Edited(host, old(files), edit)
    {
      hide Permissions;
      if edit.target.None? || edit.target.value == "" { return Refused(PathRequired); }
      var path := edit.target.value;
      var found := path in files;
      if found && !files[path].Regular? { return Refused(NotARegularFile); }
      var previous: Option<string> := None;
      if found {
        if !host.decodes(files[path].raw) { return Refused(Unreadable); }
        previous := Some(Universal(files[path].raw));
      }
      var pending := Pending(edit.operation, previous);
      if pending.Failure? { return Refused(pending.error); }
      if previous.Some? && pending.value == previous.value { return Refused(NoEffect); }
      if RejectsBrokenPython(host, path, previous, pending.value, edit.allowInvalidSyntax) { return Refused(BrokenPython); }
      if !host.decodes(pending.value) { return Refused(Unwritable); }
      AtomicWrite(path, pending.value);
      var actual := Universal(files[path].raw);
      if actual != pending.value {
        if previous.None? {
          files := files - {path};
          assert files == old(files);
        } else {
          MaskKeepsExactlyOrdinaryModes(old(files)[path].mode);
          AtomicWrite(path, previous.value);
          assert files == old(files)[path := Regular(previous.value, ModeFor(old(files), path))];
        }
        return Refused(ReadBackMismatch);
      }
      reply := Updated(|actual|);
    }
  }

  // ---- safety of edits ----

  /**
   Success changes the target and nothing else, to the planned text, and really changes it. The mode stays as it was
   exactly when it sets no special bit.
   */
  lemma {:induction false} SuccessChangesExactlyTheTarget(host: Host, files: Files, edit: Edit)
    requires Edited(host, files, edit).0.Updated?
    ensures var path, after := edit.target.value, Edited(host, files, edit).1;
            && Planned(host, files, edit).Success?
            && after == files[path := Regular(Planned(host, files, edit).value, ModeFor(files, path))]
            && after != files
            && !HasReturn(after[path].raw)
            && Edited(host, files, edit).0.chars == |after[path].raw|
            && (path in files ==> (after[path].mode == files[path].mode <==> !IsSpecial(files[path].mode)))
  {
    hide Permissions, IsSpecial;
    var path := edit.target.value;
    var pending := Planned(host, files, edit).value;
    ReadsBackUnchanged(pending);
    if path in files {
      MaskKeepsExactlyOrdinaryModes(files[path].mode);
      assert Previous(files, path) != Some(pending);
      assert files[path].raw != pending;
    }
  }

  /** The text a successful edit leaves: the given one, the old one and more, or the old one with one place changed. */
  lemma {:induction false} SuccessWrites(host: Host, files: Files, edit: Edit)
    requires Edited(host, files, edit).0.Updated?
    ensures edit.target.Some? && edit.target.value in Edited(host, files, edit).1
    ensures var path, op := edit.target.value, edit.operation;
            var after := Edited(host, files, edit).1[path];
            var before := if path in files then Universal(files[path].raw) else "";
            && after.Regular?
            && (path !in files ==> after.mode == 0x180)
            && match op
               case Create(content) => path !in files && Some(after.raw) == content
               case Write(content) => Some(after.raw) == content
               case Append(content) => content.Some? && after.raw == before + content.value
               case Replace(oldText, newText) =>
                 && path in files && oldText.Some? && newText.Some? && oldText.value != ""
                 && exists i :: OccursAt(before, oldText.value, i)
                                && (forall j | j < i :: !OccursAt(before, oldText.value, j))
                                && after.raw == before[..i] + newText.value + before[i + |oldText.value|..]
               case Unknown => false
  {
    hide Permissions;
    if edit.operation.Replace? {
      var before, part := Universal(files[edit.target.value].raw), edit.operation.oldText.value;
      FindIsLeftmost(before, part);
      assert OccursAt(before, part, Find(before, part).value);
    }
  }

  /** The leftmost occurrence, with none after its end. */
  ghost predicate OnlyAt(text: string, part: string, i: int) {
    OccursAt(text, part, i) && forall j | j < i || i + |part| <= j :: !OccursAt(text, part, j)
  }

  lemma OnlyAtMeans(text: string, part: string, i: int)
    requires part != ""
    ensures OnlyAt(text, part, i) ==> 0 <= i && i + |part| <= |text|
    ensures OnlyAt(text, part, i) <==> Count(text, part) == 1 && Find(text, part) == Some(i)
  {
    hide Count, Find, OccursAt;
    CountsOnce(text, part);
    FindIsLeftmost(text, part);
    if OnlyAt(text, part, i) { InsideTheText(text, part, i); }
    if OnlyAt(text, part, i) || Find(text, part) == Some(i) {
      var rest := text[i + |part|..];
      FindIsLeftmost(rest, part);
      forall j | i + |part| <= j
        ensures OccursAt(text, part, j) <==> OccursAt(rest, part, j - i - |part|)
      {
        OccursInRest(text, part, i + |part|, j);
      }
      if Find(rest, part).Some? {
        NoneBeforeTheStart(rest, part, Find(rest, part).value);
        assert OccursAt(text, part, Find(rest, part).value + i + |part|);
      } else {
        assert forall j | i + |part| <= j :: !OccursAt(text, part, j);
      }
    }
  }

  lemma InsideTheText(text: string, part: string, i: int)
    requires OccursAt(text, part, i)
    ensures 0 <= i && i + |part| <= |text|
  {
  }

  /** The text an edit asks for, when its operation can be carried out on a file or on a free path. */
  ghost predicate AsksFor(operation: Operation, before: Option<string>, text: string) {
    match operation
    case Create(content) => before.None? && content == Some(text)
    case Write(content) => content == Some(text)
    case Append(content) => content.Some? && text == (if before.Some? then before.value else "") + content.value
    case Replace(oldText, newText) =>
      && before.Some? && oldText.Some? && newText.Some? && oldText.value != ""
      && exists i :: OnlyAt(before.value, oldText.value, i)
                     && text == before.value[..i] + newText.value + before.value[i + |oldText.value|..]
    case Unknown => false
  }

  lemma {:induction false} PendingIsAskedFor(operation: Operation, before: Option<string>, text: string)
    ensures Pending(operation, before) == Success(text) <==> AsksFor(operation, before, text)
  {
    if operation.Replace? && before.Some? && operation.oldText.Some? && operation.oldText.value != ""
       && operation.newText.Some?
    {
      hide Find, Count;
      ReplacedOnce(before.value, operation.oldText.value, operation.newText.value, text);
    }
  }

  lemma {:induction false} ReplacedOnce(text: string, part: string, other: string, result: string)
    requires part != ""
    ensures Count(text, part) == 1 && ReplaceFirst(text, part, other) == result <==>
            exists i :: OnlyAt(text, part, i) && result == text[..i] + other + text[i + |part|..]
  {
    hide Count, Find, OnlyAt;
    if Count(text, part) == 1 {
      CountsOnce(text, part);
      OnlyAtMeans(text, part, Find(text, part).value);
    }
    forall i | OnlyAt(text, part, i)
      ensures Count(text, part) == 1 && Find(text, part) == Some(i)
    {
      OnlyAtMeans(text, part, i);
    }
  }

  /** Which check refuses an edit, in the order of the checks, and that a refusal by a check changes nothing. */
  lemma {:induction false} RefusedBecause(host: Host, files: Files, edit: Edit)
    requires edit.target.Some? && edit.target.value != ""
    ensures var path, op := edit.target.value, edit.operation;
            var reply := Edited(host, files, edit).0;
            var found := path in files;
            var readable := !found || (files[path].Regular? && host.decodes(files[path].raw));
            var before := if found && files[path].Regular? then Universal(files[path].raw) else "";
            && (reply == Refused(NotARegularFile) <==> found && files[path].Directory?)
            && (reply == Refused(Unreadable) <==> found && files[path].Regular? && !host.decodes(files[path].raw))
            && (reply == Refused(AlreadyExists) <==> readable && op.Create? && found)
            && (reply == Refused(ContentRequired) <==>
                  readable && ((op.Create? && !found && op.content.None?) || (op.Write? && op.content.None?)
                               || (op.Append? && op.content.None?)))
            && (reply == Refused(Missing) <==> op.Replace? && !found)
            && (reply == Refused(OldTextRequired) <==>
                  readable && found && op.Replace?
                  && (op.oldText.None? || op.oldText.value == "" || op.newText.None?))
            && (reply == Refused(UnknownOperation) <==> readable && op.Unknown?)
            && (forall n | reply == Refused(NotExactlyOnce(n)) ::
                  n != 1 && readable && found && op.Replace? && op.oldText.Some? && op.oldText.value != ""
                  && n == Count(before, op.oldText.value))
            && (reply == Refused(NoEffect) ==> readable && found && AsksFor(op, Some(before), before))
            && (reply.Refused? && reply.reason != ReadBackMismatch ==> Edited(host, files, edit).1 == files)
  {
    hide Permissions, Count, AsksFor, ReplaceFirst;
    var path := edit.target.value;
    if path in files && files[path].Regular? {
      PendingIsAskedFor(edit.operation, Some(Universal(files[path].raw)), Universal(files[path].raw));
    }
  }

  /**
   An edit is carried out exactly when: it names a path that is free or a readable regular file; what it asks for can be
   done there, changes the text, can be encoded and holds no carriage return; and a Python file that parses, or a new
   one, is not broken by it unless that is allowed.
   */
  lemma {:induction false} EditSucceedsExactlyWhen(host: Host, files: Files, edit: Edit)
    ensures Edited(host, files, edit).0.Updated? <==>
            && edit.target.Some? && edit.target.value != ""
            && var path := edit.target.value;
               var before := if path in files && files[path].Regular? then Some(Universal(files[path].raw)) else None;
               && (path in files ==> files[path].Regular? && host.decodes(files[path].raw))
               && exists text :: AsksFor(edit.operation, before, text)
                                 && before != Some(text) && host.decodes(text) && '\r' !in text
                                 && (host.isPython(path) && !edit.allowInvalidSyntax && !host.parses(text) ==>
                                       before.Some? && !host.parses(before.value))
  {
    hide Permissions, Pending, AsksFor, Universal;
    if edit.target.Some? && edit.target.value != "" {
      var path := edit.target.value;
      var before := if path in files && files[path].Regular? then Some(Universal(files[path].raw)) else None;
      var pending := Pending(edit.operation, before);
      forall text: string
        ensures pending == Success(text) <==> AsksFor(edit.operation, before, text)
        ensures Universal(text) == text <==> '\r' !in text
      {
        PendingIsAskedFor(edit.operation, before, text);
        ReadsBackUnchanged(text);
      }
      if pending.Success? { assert AsksFor(edit.operation, before, pending.value); }
    }
  }

  /**
   The edits that are refused only after writing over a file: they pass every check and ask to store a carriage return.
   */
  predicate IsUndone(host: Host, files: Files, edit: Edit) {
    var planned := Planned(host, files, edit);
    planned.Success? && HasReturn(planned.value) && edit.target.value in files
  }

  /** Undoing the write puts a translated text back. */
  predicate LosesLineEnds(host: Host, files: Files, edit: Edit) {
    IsUndone(host, files, edit) && HasReturn(files[edit.target.value].raw)
  }

  /** Writing and undoing the write clear special mode bits. */
  predicate LosesSpecialBits(host: Host, files: Files, edit: Edit) {
    IsUndone(host, files, edit) && IsSpecial(files[edit.target.value].mode)
  }

  /** A refused edit leaves every file as it was, exactly unless it loses line ends or special mode bits. */
  lemma {:induction false} RefusalKeepsFilesExactlyWhen(host: Host, files: Files, edit: Edit)
    requires Edited(host, files, edit).0.Refused?
    ensures Edited(host, files, edit).1 == files <==>
             !LosesLineEnds(host, files, edit) && !LosesSpecialBits(host, files, edit)
  {
    hide Permissions, IsSpecial;
    var planned := Planned(host, files, edit);
    if planned.Success? {
      var path := edit.target.value;
      ReadsBackUnchanged(planned.value);
      if path in files {
        var was := files[path];
        ReadsBackUnchanged(was.raw);
        MaskKeepsExactlyOrdinaryModes(was.mode);
        assert Edited(host, files, edit).1[path] == Regular(Universal(was.raw), Permissions(was.mode));
      }
    }
  }

  /** A set-user-id program of mode 4755: a successful edit leaves it 0755, and so does a refused one. */
  lemma EditsClearSpecialBits(host: Host, raw: string, text: string)
    requires !HasReturn(raw) && !HasReturn(text) && raw != text
    requires host.decodes(raw) && host.decodes(text) && host.decodes("\r") && !host.isPython("f")
    ensures var files := map["f" := Regular(raw, 0x9ED)];
            && Edited(host, files, Edit(Some("f"), Write(Some(text)), false))
               == (Updated(|text|), map["f" := Regular(text, 0x1ED)])
            && Edited(host, files, Edit(Some("f"), Write(Some("\r")), false))
               == (Refused(ReadBackMismatch), map["f" := Regular(raw, 0x1ED)])
  {
    var files := map["f" := Regular(raw, 0x9ED)];
    ReadsBackUnchanged(raw);
    ReadsBackUnchanged(text);
    ReadsBackUnchanged("\r");
    assert HasReturn("\r") by { assert "\r"[0] == '\r'; }
    assert Previous(files, "f") == Some(raw);
    assert Permissions(0x9ED) == 0x1ED;
    var kept, refused := Edit(Some("f"), Write(Some(text)), false), Edit(Some("f"), Write(Some("\r")), false);
    assert Planned(host, files, kept) == Success(text) && Planned(host, files, refused) == Success("\r");
    assert Edited(host, files, kept).1 == map["f" := Regular(text, 0x1ED)];
    assert Edited(host, files, refused).1 == map["f" := Regular(raw, 0x1ED)];
  }

  /** A concrete refused edit that rewrites its target: the line ends of a DOS file are gone afterwards. */
  lemma RefusedEditCanRewriteItsTarget(host: Host)
    requires host.decodes("a\r\n") && host.decodes("b\r\n") && !host.isPython("f")
    ensures var files := map["f" := Regular("a\r\n", 0x1A4)];
            var edit := Edit(Some("f"), Write(Some("b\r\n")), false);
            Edited(host, files, edit) == (Refused(ReadBackMismatch), map["f" := Regular("a\n", 0x1A4)])
  {
    DosText('a');
    DosText('b');
    var files := map["f" := Regular("a\r\n", 0x1A4)];
    var edit := Edit(Some("f"), Write(Some("b\r\n")), false);
    assert "a\r\n" == ['a', '\r', '\n'] && "b\r\n" == ['b', '\r', '\n'] && "a\n" == ['a', '\n'];
    assert Previous(files, "f") == Some("a\n");
    assert "a\n"[0] != "b\r\n"[0];
    assert Planned(host, files, edit) == Success("b\r\n");
    assert |Universal("b\r\n")| == 2;
    assert Edited(host, files, edit).1 == map["f" := Regular("a\n", 0x1A4)];
  }

  lemma DosText(c: char)
    requires c != '\r'
    ensures Universal([c, '\r', '\n']) == [c, '\n']
  {
    assert [c, '\r', '\n'][1..] == ['\r', '\n'];
    assert ['\r', '\n'][2..] == "";
  }

  /** Whatever happens, an edit touches no file but its target. */
  lemma OtherFilesAreKept(host: Host, files: Files, edit: Edit, other: Path)
    requires edit.target != Some(other)
    ensures var after := Edited(host, files, edit).1;
            (other in after <==> other in files) && (other in files ==> after[other] == files[other])
  {
  }

  // ---- sequences of edits ----

  function AfterEdits(host: Host, files: Files, edits: seq<Edit>): Files
    decreases |edits|
  {
    if edits == [] then files else AfterEdits(host, Edited(host, files, edits[0]).1, edits[1..])
  }

  /** The path is free or holds Python that parses when it is read. */
  predicate SoundPython(host: Host, files: Files, path: Path) {
    path in files ==> files[path].Regular? && host.parses(Universal(files[path].raw))
  }

  lemma {:induction false} EditKeepsPythonSound(host: Host, files: Files, edit: Edit, path: Path)
    requires host.isPython(path) && SoundPython(host, files, path)
    requires edit.target == Some(path) ==> !edit.allowInvalidSyntax
    ensures SoundPython(host, Edited(host, files, edit).1, path)
  {
    if edit.target == Some(path) && path in files {
      var raw := files[path].raw;
      UniversalHasNoReturn(raw);
      ReadsBackUnchanged(Universal(raw));
    }
  }

  /** Over any sequence of edits that do not opt out, a Python file that parses keeps parsing, and a new one parses. */
  lemma {:induction false} PythonKeepsParsing(host: Host, files: Files, edits: seq<Edit>, path: Path)
    requires host.isPython(path) && SoundPython(host, files, path)
    requires forall e | e in edits && e.target == Some(path) :: !e.allowInvalidSyntax
    ensures SoundPython(host, AfterEdits(host, files, edits), path)
    decreases |edits|
  {
    if edits != [] {
      EditKeepsPythonSound(host, files, edits[0], path);
      PythonKeepsParsing(host, Edited(host, files, edits[0]).1, edits[1..], path);
    }
  }
}
