/**
 The v2 text tool-call protocol (aicoder/executor.py, TEXT_TOOL_V2_BLOCK_RE, _parse_text_tool_v2_sequence
 and strip_tool_calls). The regular expressions are spelled out as matching functions on strings;
 JSON is a decoding function.
 */
module ToolProtocol {
  import opened Wrappers

  datatype Json = Object(fields: map<string, string>) | Text(text: string) | Null | Other

  datatype Call = Call(name: string, arguments: map<string, string>)

  /** A regular-expression match: where the block lies and its two groups. */
  datatype Block = Block(start: nat, end: nat, name: string, args: string)

  datatype Hit = Hit(name: string, args: string, length: nat)

  const TOOL_MARK: string := "TOOL_CALL"
  const END_MARK: string := "\nEND_TOOL_CALL"

  // ---- characters and strings ----

  predicate IsSpace(c: char) {
    c == ' ' || '\t' <= c <= '\r' || 28 <= c as int <= 31
  }

  predicate IsNameChar(c: char) {
    'A' <= c <= 'Z' || 'a' <= c <= 'z' || '0' <= c <= '9' || c == '_' || c == '.' || c == ':' || c == '-'
  }

  function Fold(c: char): char {
    if 'a' <= c <= 'z' then (c as int - 32) as char else c
  }

  predicate Blank(s: string) {
    forall i | 0 <= i < |s| :: IsSpace(s[i])
  }

  /** The characters of tool names, and those that count as white space. */
  lemma CharacterClasses(c: char)
    ensures IsNameChar(c) <==> var n := c as int;
                               48 <= n <= 57 || 65 <= n <= 90 || 97 <= n <= 122 || n in {45, 46, 58, 95}
    ensures IsSpace(c) <==> c as int in {9, 10, 11, 12, 13, 28, 29, 30, 31, 32}
  {
  }

  predicate OneLine(s: string) {
    forall i | 0 <= i < |s| :: s[i] != '\n'
  }

  predicate IsName(s: string) {
    s != "" && forall i | 0 <= i < |s| :: IsNameChar(s[i])
  }

  /** Case-insensitive prefix test. */
  predicate StartsWith(s: string, mark: string) {
    |mark| <= |s| && forall i | 0 <= i < |mark| :: Fold(s[i]) == mark[i]
  }

  /** Length of the longest prefix of white space. */
  function Spaces(s: string): (n: nat)
    ensures n <= |s| && (n < |s| ==> !IsSpace(s[n]))
    ensures forall i | 0 <= i < n :: IsSpace(s[i])
  {
    if s != "" && IsSpace(s[0]) then 1 + Spaces(s[1..]) else 0
  }

  /** Length of the longest prefix of name characters. */
  function NameChars(s: string): (n: nat)
    ensures n <= |s| && (n < |s| ==> !IsNameChar(s[n]))
    ensures forall i | 0 <= i < n :: IsNameChar(s[i])
  {
    if s != "" && IsNameChar(s[0]) then 1 + NameChars(s[1..]) else 0
  }

  /** `str.strip`. */
  function Strip(s: string): string {
    StripRight(s[Spaces(s)..])
  }

  function StripRight(s: string): string {
    if s != "" && IsSpace(s[|s| - 1]) then StripRight(s[..|s| - 1]) else s
  }

  // ---- the block expression ----

  /** The first end mark, which closes the lazily matched arguments. */
  function FindEnd(s: string): (r: Option<nat>)
    ensures r.Some? ==> r.value + 14 <= |s|
  {
    if s == "" then None
    else if StartsWith(s, END_MARK) then Some(0)
    else match FindEnd(s[1..])
      case Some(e) => Some(e + 1)
      case None => None
  }

  /** The greedy white space before the arguments gives back newlines until the rest of the block matches. */
  function ArgsStart(body: string, d: nat): (r: Option<nat>)
    requires d <= |body|
    ensures r.Some? ==> 0 < r.value <= d && FindEnd(body[r.value..]).Some?
  {
    if d == 0 then None
    else if body[d - 1] == '\n' && FindEnd(body[d..]).Some? then Some(d)
    else ArgsStart(body, d - 1)
  }

  /** The rest of the block expression after the name: where the arguments start and end in `body`. */
  function MatchArgs(body: string): (r: Option<(nat, nat)>)
    ensures r.Some? ==> r.value.0 <= r.value.1 && r.value.1 + |END_MARK| <= |body|
  {
    match ArgsStart(body, Spaces(body))
    case None => None
    case Some(from) => Some((from, from + FindEnd(body[from..]).value))
  }

  /** The block expression matched at the start of `s`. */
  function MatchHere(s: string): (r: Option<Hit>)
    ensures r.Some? ==> 0 < r.value.length <= |s|
  {
    if !StartsWith(s, TOOL_MARK) then None else
    var rest := s[|TOOL_MARK|..];
    var gap := Spaces(rest);
    var named := rest[gap..];
    var n := NameChars(named);
    if gap == 0 || n == 0 then None else
    var body := named[n..];
    match MatchArgs(body)
    case None => None
    case Some((from, to)) =>
      Some(Hit(named[..n], body[from..to], |s| - |body| + to + |END_MARK|))
  }

  /** Non-empty matches in order, without overlap, between positions `lo` and `hi`. */
  predicate Ordered(ms: seq<Block>, lo: nat, hi: nat) {
    if ms == [] then lo <= hi
    else lo <= ms[0].start < ms[0].end && Ordered(ms[1..], ms[0].end, hi)
  }

  /** All matches of the block expression in the text `s` that starts at `offset`, leftmost first. */
  function Blocks(s: string, offset: nat): (r: seq<Block>)
    decreases |s|
  {
    if s == "" then []
    else
      match MatchHere(s)
      case Some(h) => [Block(offset, offset + h.length, h.name, h.args)] + Blocks(s[h.length..], offset + h.length)
      case None => Blocks(s[1..], offset + 1)
  }

  lemma {:induction false} OrderedCons(m: Block, ms: seq<Block>, lo: nat, hi: nat)
    requires lo <= m.start < m.end && Ordered(ms, m.end, hi)
    ensures Ordered([m] + ms, lo, hi)
  {
  }

  lemma {:induction false} OrderedFrom(ms: seq<Block>, lo: nat, later: nat, hi: nat)
    requires Ordered(ms, later, hi) && lo <= later
    ensures Ordered(ms, lo, hi)
  {
  }

  lemma {:induction false} BlocksAreOrdered(s: string, offset: nat)
    ensures Ordered(Blocks(s, offset), offset, offset + |s|)
    decreases |s|
  {
    hide MatchHere, Ordered;
    if s == "" {
      OrderedNil(offset);
    } else if MatchHere(s).Some? {
      var h := MatchHere(s).value;
      BlocksAreOrdered(s[h.length..], offset + h.length);
      OrderedCons(Block(offset, offset + h.length, h.name, h.args), Blocks(s[h.length..], offset + h.length), offset,
                  offset + |s|);
    } else {
      BlocksAreOrdered(s[1..], offset + 1);
      OrderedFrom(Blocks(s[1..], offset + 1), offset, offset + 1, offset + |s|);
    }
  }

  lemma {:induction false} OrderedNil(at: nat)
    ensures Ordered([], at, at)
  {
  }

  // ---- Markdown fences ----

  /** Position of the first triple backtick. */
  function FindTicks(s: string): (r: Option<nat>)
    ensures r.Some? ==> r.value + 3 <= |s|
  {
    if |s| < 3 then None
    else if s[0] == '`' && s[1] == '`' && s[2] == '`' then Some(0)
    else match FindTicks(s[1..])
      case Some(i) => Some(i + 1)
      case None => None
  }

  /** Whether `at` lies in a closed fence of the text `s` that starts at `offset`. */
  predicate InFence(s: string, offset: nat, at: nat)
    decreases |s|
  {
    match FindTicks(s)
    case None => false
    case Some(i) =>
      match FindTicks(s[i + 3..])
      case None => false
      case Some(j) =>
        var close := i + 3 + j + 3;
        offset + i <= at < offset + close || InFence(s[close..], offset + close, at)
  }

  // ---- decoding ----

  /**
   `_normalize_tool_call` on the arguments of a block: a JSON string is decoded once more, null means no arguments.
   */
  function NormalizeArguments(decode: string -> Option<Json>, args: Json): Option<map<string, string>> {
    var value := if args.Text? then decode(args.text) else Some(args);
    match value
    case Some(Object(fields)) => Some(fields)
    case Some(Null) => Some(map[])
    case _ => None
  }

  function Decode(decode: string -> Option<Json>, m: Block): Option<Call> {
    var raw := Strip(m.args);
    var value := if raw != "" then decode(raw) else Some(Object(map[]));
    match value
    case None => None
    case Some(args) =>
      match NormalizeArguments(decode, args)
      case None => None
      case Some(fields) => Some(Call(m.name, fields))
  }

  /**
   What a block decodes to: no arguments when they are blank or null, the fields of a JSON object, also one inside a JSON
   string, and nothing otherwise.
   */
  lemma DecodedTo(decode: string -> Option<Json>, m: Block)
    ensures var raw := Strip(m.args);
            Decode(decode, m) ==
            if raw == "" then Some(Call(m.name, map[]))
            else match decode(raw)
              case Some(Object(fields)) => Some(Call(m.name, fields))
              case Some(Null) => Some(Call(m.name, map[]))
              case Some(Text(inner)) =>
                (match decode(inner)
                 case Some(Object(fields)) => Some(Call(m.name, fields))
                 case Some(Null) => Some(Call(m.name, map[]))
                 case _ => None)
              case _ => None
  {
  }

  /** Stripping takes white space off both ends and nothing else. */
  lemma {:induction false} StripTakesTheEnds(s: string)
    ensures var n, k := Spaces(s), |Strip(s)|;
            && n + k <= |s| && Strip(s) == s[n..n + k] && Blank(s[..n]) && Blank(s[n + k..])
            && (k > 0 ==> !IsSpace(Strip(s)[0]) && !IsSpace(Strip(s)[k - 1]))
  {
    hide Blank, IsSpace, Spaces, StripRight;
    var n := Spaces(s);
    var t := s[n..];
    StripRightTakesTheEnd(t);
    var k := |StripRight(t)|;
    SpacesAreBlank(s);
    SliceOfSlice(s, n, k);
    assert StripRight(t) == t[..k];
    assert k > 0 ==> s[n..n + k][0] == s[n];
  }

  lemma SliceOfSlice(s: string, n: nat, k: nat)
    requires n + k <= |s|
    ensures s[n..][..k] == s[n..n + k] && s[n..][k..] == s[n + k..]
  {
  }

  lemma SpacesAreBlank(s: string)
    ensures Blank(s[..Spaces(s)])
  {
  }

  lemma {:induction false} StripRightTakesTheEnd(t: string)
    ensures StripRight(t) <= t && Blank(t[|StripRight(t)|..])
    ensures StripRight(t) != "" ==> !IsSpace(StripRight(t)[|StripRight(t)| - 1])
  {
    if t != "" && IsSpace(t[|t| - 1]) {
      var front := t[..|t| - 1];
      StripRightTakesTheEnd(front);
      var k := |StripRight(front)|;
      assert forall i | 0 <= i < |t| - k :: t[k..][i] == if i < |front| - k then front[k..][i] else t[|t| - 1];
    }
  }

  lemma {:induction false} OrderedBounds(ms: seq<Block>, lo: nat, hi: nat)
    requires Ordered(ms, lo, hi)
    ensures lo <= hi
    ensures ms != [] ==> lo <= ms[0].start < ms[0].end <= ms[|ms| - 1].end <= hi
    decreases |ms|
  {
    if ms != [] {
      OrderedBounds(ms[1..], ms[0].end, hi);
      assert |ms| > 1 ==> ms[1..][|ms| - 2] == ms[|ms| - 1];
    }
  }

  /** The text outside the blocks: one piece before each block and one after the last. */
  function Gaps(raw: string, ms: seq<Block>, cursor: nat): (r: seq<string>)
    requires Ordered(ms, cursor, |raw|)
    ensures |r| == |ms| + 1
  {
    OrderedBounds(ms, cursor, |raw|);
    if ms == [] then [raw[cursor..]]
    else [raw[cursor..ms[0].start]] + Gaps(raw, ms[1..], ms[0].end)
  }

  function Join(pieces: seq<string>, separator: string): string {
    if pieces == [] then ""
    else if |pieces| == 1 then pieces[0]
    else pieces[0] + separator + Join(pieces[1..], separator)
  }

  /** A protocol marker standing at the start of a line, after optional white space. */
  predicate MarkerAt(s: string) {
    var t := s[Spaces(s)..];
    || (StartsWith(t, TOOL_MARK) && Spaces(t[|TOOL_MARK|..]) > 0)
    || (StartsWith(t, END_MARK[1..]) &&
        var after := t[|END_MARK| - 1..];
        var n := Spaces(after);
        n == |after| || '\n' in after[..n])
  }

  predicate HasMarker(s: string) {
    exists i :: 0 <= i <= |s| && (i == 0 || s[i - 1] == '\n') && MarkerAt(s[i..])
  }

  lemma BlocksFitTheText(raw: string)
    ensures Ordered(Blocks(raw, 0), 0, |raw|)
  {
    hide Ordered, Blocks;
    BlocksAreOrdered(raw, 0);
  }

  /** The text of `raw` outside the blocks `ms`. */
  function Outside(raw: string, ms: seq<Block>): seq<string>
    requires Ordered(ms, 0, |raw|)
  {
    Gaps(raw, ms, 0)
  }

  predicate SomeInFence(raw: string, ms: seq<Block>) {
    exists m | m in ms :: InFence(raw, 0, m.start)
  }

  ghost predicate AllDecode(ms: seq<Block>, decode: string -> Option<Json>) {
    forall m | m in ms :: Decode(decode, m).Some?
  }

  ghost predicate AllBlank(pieces: seq<string>) {
    forall g | g in pieces :: Blank(g)
  }

  /** Every condition a text has to meet for its blocks `ms` to be executed. */
  ghost predicate Executable(raw: string, ms: seq<Block>, decode: string -> Option<Json>, prose: bool)
    requires Ordered(ms, 0, |raw|)
  {
    && ms != [] && !SomeInFence(raw, ms) && AllDecode(ms, decode)
    && (!prose ==> AllBlank(Outside(raw, ms)))
    && !HasMarker(Join(Outside(raw, ms), "\n"))
  }

  ghost predicate WellFormed(raw: string, decode: string -> Option<Json>, prose: bool) {
    BlocksFitTheText(raw);
    Executable(raw, Blocks(raw, 0), decode, prose)
  }

  /** `calls` are the decoded blocks `ms`, in order. */
  ghost predicate AreDecoded(calls: seq<Call>, ms: seq<Block>, decode: string -> Option<Json>) {
    |calls| == |ms| && forall i | 0 <= i < |ms| :: Decode(decode, ms[i]) == Some(calls[i])
  }

  /** `calls` are the decoded blocks of `raw`, in order. */
  ghost predicate AreCallsOf(calls: seq<Call>, raw: string, decode: string -> Option<Json>) {
    AreDecoded(calls, Blocks(raw, 0), decode)
  }

  /** Where the k-th block and the piece before it lie. */
  lemma {:induction false} GapAt(raw: string, ms: seq<Block>, cursor: nat, k: nat)
    requires Ordered(ms, cursor, |raw|) && k <= |ms|
    ensures var from := if k == 0 then cursor else ms[k - 1].end;
            var to := if k == |ms| then |raw| else ms[k].start;
            from <= to <= |raw| && Gaps(raw, ms, cursor)[k] == raw[from..to]
    ensures k < |ms| ==> ms[k].start < ms[k].end <= |raw|
    decreases k
  {
    OrderedBounds(ms, cursor, |raw|);
    if k > 0 {
      GapAt(raw, ms[1..], ms[0].end, k - 1);
    }
  }

  /** Decode the matches one after the other, collecting the text between them; stop at the first failure. */
  method DecodeAll(raw: string, matches: seq<Block>, decode: string -> Option<Json>, allowProse: bool)
    returns (ok: bool, calls: seq<Call>, residual: seq<string>)
    requires Ordered(matches, 0, |raw|)
    ensures ok <==>
      && AllDecode(matches, decode) && (!allowProse ==> AllBlank(Outside(raw, matches)))
    ensures ok ==> residual == Outside(raw, matches) && AreDecoded(calls, matches, decode)
  {
    hide Decode, Blank, Gaps, Ordered;
    ok, calls, residual := false, [], [];
    var cursor := 0;
    ghost var gaps := Gaps(raw, matches, 0);
    var k := 0;
    while k < |matches|
      invariant |calls| == k == |residual| <= |matches|
      invariant cursor == if k == 0 then 0 else matches[k - 1].end
      invariant forall i | 0 <= i < k :: Decode(decode, matches[i]) == Some(calls[i])
      invariant residual == gaps[..k]
      invariant !allowProse ==> forall i | 0 <= i < k :: Blank(gaps[i])
    {
      GapAt(raw, matches, 0, k);
      var gap := raw[cursor..matches[k].start];
      assert gap == gaps[k];
      if !Blank(gap) && !allowProse { return; }
      residual := residual + [gap];
      var call := Decode(decode, matches[k]);
      if call.None? { return; }
      calls := calls + [call.value];
      cursor := matches[k].end;
      k := k + 1;
    }
    GapAt(raw, matches, 0, k);
    var tail := raw[cursor..];
    assert tail == gaps[k];
    if !Blank(tail) && !allowProse { return; }
    residual := residual + [tail];
    ok := true;
  }

  /**
   All or nothing: a well-formed text yields the decoding of every block, any other text yields nothing.
   */
  method ParseSequence(raw: string, decode: string -> Option<Json>, allowProse: bool) returns (calls: seq<Call>)
    ensures calls != [] <==> WellFormed(raw, decode, allowProse)
    ensures calls != [] ==> AreCallsOf(calls, raw, decode)
  {
    hide Blocks, Ordered, SomeInFence, HasMarker, Outside, Join, Decode, AllBlank, AllDecode;
    BlocksFitTheText(raw);
    calls := Execute(raw, Blocks(raw, 0), decode, allowProse);
  }

  /** The calls of the matches of the block expression, if every condition is met. */
  method Execute(raw: string, matches: seq<Block>, decode: string -> Option<Json>,
                 allowProse: bool) returns (calls: seq<Call>)
    requires Ordered(matches, 0, |raw|)
    ensures calls != [] <==> Executable(raw, matches, decode, allowProse)
    ensures calls != [] ==> AreDecoded(calls, matches, decode)
  {
    hide Ordered, SomeInFence, HasMarker, Join, Decode, AllBlank, AllDecode, Outside;
    if matches == [] || SomeInFence(raw, matches) { return []; }
    var ok, decoded, residual := DecodeAll(raw, matches, decode, allowProse);
    if !ok || HasMarker(Join(residual, "\n")) { return []; }
    return decoded;
  }

  // ---- what the matches are ----

  /** `m` records what the block expression matches where `m` starts, in the text `s` that starts at `offset`. */
  predicate IsMatch(s: string, offset: nat, m: Block) {
    && offset <= m.start < m.end <= offset + |s|
    && MatchHere(s[m.start - offset..]) == Some(Hit(m.name, m.args, m.end - m.start))
  }

  /** Position `at` lies in one of the matches. */
  predicate Covered(ms: seq<Block>, at: nat) {
    ms != [] && (ms[0].start <= at < ms[0].end || Covered(ms[1..], at))
  }

  lemma {:induction false} EveryBlockIsAMatch(s: string, offset: nat, k: nat)
    requires k < |Blocks(s, offset)|
    ensures IsMatch(s, offset, Blocks(s, offset)[k])
    decreases |s|
  {
    hide MatchHere;
    if s != "" {
      assert s[0..] == s;
      if MatchHere(s).Some? {
        var step := MatchHere(s).value.length;
        if k > 0 {
          EveryBlockIsAMatch(s[step..], offset + step, k - 1);
          MatchInSuffix(s, offset, step, Blocks(s[step..], offset + step)[k - 1]);
        }
      } else {
        EveryBlockIsAMatch(s[1..], offset + 1, k);
        MatchInSuffix(s, offset, 1, Blocks(s[1..], offset + 1)[k]);
      }
    }
  }

  lemma {:induction false} MatchInSuffix(s: string, offset: nat, step: nat, m: Block)
    requires step <= |s| && IsMatch(s[step..], offset + step, m)
    ensures IsMatch(s, offset, m)
  {
    hide MatchHere;
    assert s[step..][m.start - (offset + step)..] == s[m.start - offset..];
  }

  lemma NoMatchAtEnd()
    ensures MatchHere("").None?
  {
  }

  /** No match is missed: wherever the block expression matches, a block covers the position. */
  lemma {:induction false} EveryMatchIsCovered(s: string, offset: nat, i: nat)
    requires i <= |s| && MatchHere(s[i..]).Some?
    ensures Covered(Blocks(s, offset), offset + i)
    decreases |s|
  {
    hide MatchHere, Covered;
    NoMatchAtEnd();
    var hit := MatchHere(s);
    assert i == 0 ==> s[i..] == s;
    if hit.Some? {
      var n := hit.value.length;
      var rest := Blocks(s[n..], offset + n);
      if i >= n {
        assert s[n..][i - n..] == s[i..];
        EveryMatchIsCovered(s[n..], offset + n, i - n);
      }
      CoveredCons(Block(offset, offset + n, hit.value.name, hit.value.args), rest, offset + i);
    } else {
      assert s[1..][i - 1..] == s[i..];
      EveryMatchIsCovered(s[1..], offset + 1, i - 1);
    }
  }

  lemma {:induction false} CoveredMeans(ms: seq<Block>, at: nat)
    ensures Covered(ms, at) <==> exists k :: 0 <= k < |ms| && ms[k].start <= at < ms[k].end
  {
    if ms != [] {
      CoveredMeans(ms[1..], at);
      if k :| 0 <= k < |ms| && ms[k].start <= at < ms[k].end {
        if k > 0 { assert ms[1..][k - 1] == ms[k]; }
      }
    }
  }

  lemma CoveredCons(m: Block, ms: seq<Block>, at: nat)
    requires m.start <= at < m.end || Covered(ms, at)
    ensures Covered([m] + ms, at)
  {
  }

  // ---- rendering and parsing back ----

  /** One rendered call and the white space before it. */
  datatype Piece = Piece(gap: string, name: string, args: string)

  function Render(p: Piece): string {
    TOOL_MARK + (" " + (p.name + ("\n" + (p.args + END_MARK))))
  }

  function RenderAll(ps: seq<Piece>, tail: string): string {
    if ps == [] then tail else ps[0].gap + (Render(ps[0]) + RenderAll(ps[1..], tail))
  }

  /**
   A call in the taught format: a proper name, and arguments on one line that are not blank and hold no triple backtick.
   */
  predicate Renderable(p: Piece) {
    Blank(p.gap) && IsName(p.name) && !Blank(p.args) && OneLine(p.args) && FindTicks(p.args).None?
  }

  lemma {:induction false} SpacesOf(w: string, rest: string)
    requires Blank(w) && (rest == "" || !IsSpace(rest[0]))
    ensures Spaces(w + rest) == |w|
  {
    if w == "" {
      assert w + rest == rest;
    } else {
      assert (w + rest)[1..] == w[1..] + rest;
      SpacesOf(w[1..], rest);
    }
  }

  lemma {:induction false} NameCharsOf(name: string, rest: string)
    requires (forall i | 0 <= i < |name| :: IsNameChar(name[i])) && (rest == "" || !IsNameChar(rest[0]))
    ensures NameChars(name + rest) == |name|
  {
    if name == "" {
      assert name + rest == rest;
    } else {
      assert (name + rest)[1..] == name[1..] + rest;
      NameCharsOf(name[1..], rest);
    }
  }

  lemma {:induction false} FindEndOf(t: string, rest: string)
    requires OneLine(t) && StartsWith(rest, END_MARK)
    ensures FindEnd(t + rest) == Some(|t|)
  {
    if t == "" {
      assert t + rest == rest;
    } else {
      assert !StartsWith(t + rest, END_MARK) by { assert (t + rest)[0] == t[0]; assert END_MARK[0] == '\n'; assert Fold(t[0]) != '\n'; }
      hide StartsWith;
      assert (t + rest)[1..] == t[1..] + rest;
      FindEndOf(t[1..], rest);
    }
  }

  lemma {:induction false} ArgsStartOf(t: string, rest: string, d: nat)
    requires OneLine(t) && StartsWith(rest, END_MARK) && 1 <= d <= |t| + 1
    ensures ArgsStart("\n" + (t + rest), d) == Some(1)
    decreases d
  {
    hide StartsWith;
    var body := "\n" + (t + rest);
    if d == 1 {
      assert body[1..] == t + rest;
      FindEndOf(t, rest);
    } else {
      assert body[d - 1] == t[d - 2];
      ArgsStartOf(t, rest, d - 1);
    }
  }

  /** The white space the expression may swallow after the name ends inside the arguments line. */
  lemma {:induction false} SpacesBeforeArgs(t: string, rest: string)
    requires !Blank(t)
    ensures 1 <= Spaces("\n" + (t + rest)) <= |t|
  {
    var body := "\n" + (t + rest);
    var i :| 0 <= i < |t| && !IsSpace(t[i]);
    assert body[i + 1] == t[i];
    assert body[0] == '\n';
  }

  lemma {:induction false} MatchArgsOf(t: string, rest: string)
    requires OneLine(t) && !Blank(t) && StartsWith(rest, END_MARK)
    ensures MatchArgs("\n" + (t + rest)) == Some((1, 1 + |t|))
  {
    hide StartsWith;
    var body := "\n" + (t + rest);
    SpacesBeforeArgs(t, rest);
    ArgsStartOf(t, rest, Spaces(body));
    assert body[1..] == t + rest;
    FindEndOf(t, rest);
  }

  lemma DropConcat(a: string, b: string)
    ensures (a + b)[|a|..] == b && (a + b)[..|a|] == a
  {
  }

  lemma MarksStart(mark: string, rest: string)
    requires mark == TOOL_MARK || mark == END_MARK
    ensures StartsWith(mark + rest, mark)
  {
  }

  /** How the parts of the block expression make up a match. */
  lemma MatchOfParts(name: string, body: string, from: nat, to: nat)
    requires name != "" && Spaces(" " + (name + body)) == 1 && NameChars(name + body) == |name|
    requires MatchArgs(body) == Some((from, to))
    ensures var s := TOOL_MARK + (" " + (name + body));
            MatchHere(s) == Some(Hit(name, body[from..to], |s| - |body| + to + |END_MARK|))
  {
    hide StartsWith, MatchArgs, Spaces, NameChars, IsSpace, IsNameChar, FindEnd, ArgsStart, Fold;
    var rest := " " + (name + body);
    var s := TOOL_MARK + rest;
    MarksStart(TOOL_MARK, rest);
    DropConcat(TOOL_MARK, rest);
    DropConcat(" ", name + body);
    DropConcat(name, body);
    assert s[|TOOL_MARK|..] == rest && rest[1..] == name + body;
  }

  lemma RenderedShape(p: Piece, tail: string, body: string)
    requires body == "\n" + (p.args + (END_MARK + tail))
    ensures Render(p) + tail == TOOL_MARK + (" " + (p.name + body))
    ensures body[1..1 + |p.args|] == p.args
  {
  }

  lemma {:induction false} MatchRendered(p: Piece, tail: string)
    requires Renderable(p)
    ensures MatchHere(Render(p) + tail) == Some(Hit(p.name, p.args, |Render(p)|))
  {
    hide StartsWith, MatchArgs, MatchHere, Spaces, NameChars, Render, FindTicks;
    var rest := END_MARK + tail;
    var body := "\n" + (p.args + rest);
    var named := p.name + body;
    var s := Render(p) + tail;
    RenderedShape(p, tail, body);
    MarksStart(END_MARK, tail);
    SpacesOf(" ", named);
    NameCharsOf(p.name, body);
    MatchArgsOf(p.args, rest);
    MatchOfParts(p.name, body, 1, 1 + |p.args|);
  }

  lemma NoMatchAtSpace(s: string)
    requires s != "" && IsSpace(s[0])
    ensures MatchHere(s).None?
  {
    assert Fold(s[0]) != TOOL_MARK[0];
    assert !StartsWith(s, TOOL_MARK);
  }

  /** White space before a block is skipped. */
  lemma {:induction false} BlocksAfterBlank(w: string, rest: string, offset: nat)
    requires Blank(w)
    ensures Blocks(w + rest, offset) == Blocks(rest, offset + |w|)
  {
    hide MatchHere;
    if w == "" {
      assert w + rest == rest;
    } else {
      NoMatchAtSpace(w + rest);
      assert (w + rest)[1..] == w[1..] + rest;
      BlocksAfterBlank(w[1..], rest, offset + 1);
    }
  }

  /** The text nowhere holds the word that opens a call, in any case. */
  predicate NoMark(s: string) {
    forall i | 0 <= i <= |s| :: !StartsWith(s[i..], TOOL_MARK)
  }

  predicate IsMarkChar(c: char) {
    Fold(c) == '_' || 'A' <= Fold(c) <= 'Z'
  }

  lemma MarkChars(s: string, i: nat, k: nat)
    requires i <= k < |s| && k - i < |TOOL_MARK| && StartsWith(s[i..], TOOL_MARK)
    ensures IsMarkChar(s[k])
  {
    assert s[i..][k - i] == s[k];
    assert Fold(s[k]) == TOOL_MARK[k - i];
  }

  lemma BlankHasNoMark(s: string)
    requires Blank(s)
    ensures NoMark(s)
  {
    forall i | 0 <= i <= |s|
      ensures !StartsWith(s[i..], TOOL_MARK)
    {
      if StartsWith(s[i..], TOOL_MARK) { MarkChars(s, i, i); }
    }
  }

  /** No opening word arises where two texts meet, unless both have a letter of it there. */
  lemma NoMarkConcat(a: string, b: string)
    requires NoMark(a) && NoMark(b)
    requires a == "" || b == "" || !IsMarkChar(a[|a| - 1]) || !IsMarkChar(b[0])
    ensures NoMark(a + b)
  {
    var s := a + b;
    forall i | 0 <= i <= |s|
      ensures !StartsWith(s[i..], TOOL_MARK)
    {
      if i >= |a| {
        assert s[i..] == b[i - |a|..];
      } else if i + |TOOL_MARK| <= |a| {
        assert forall k | 0 <= k < |TOOL_MARK| :: s[i..][k] == a[i..][k];
        assert !StartsWith(a[i..], TOOL_MARK);
      } else if StartsWith(s[i..], TOOL_MARK) {
        MarkChars(s, i, |a| - 1);
        MarkChars(s, i, |a|);
      }
    }
  }

  /** Text in which no call opens is skipped. */
  lemma {:induction false} BlocksAfterPlain(w: string, rest: string, offset: nat)
    requires NoMark(w) && (w == "" || rest == "" || !IsMarkChar(w[|w| - 1]) || !IsMarkChar(rest[0]))
    ensures Blocks(w + rest, offset) == Blocks(rest, offset + |w|)
    decreases |w|
  {
    hide MatchHere, StartsWith, IsMarkChar;
    if w == "" {
      assert w + rest == rest;
    } else {
      NoMatchInPlain(w, rest);
      assert (w + rest)[1..] == w[1..] + rest;
      NoMarkInTail(w);
      BlocksAfterPlain(w[1..], rest, offset + 1);
    }
  }

  lemma NoMarkInTail(w: string)
    requires NoMark(w) && w != ""
    ensures NoMark(w[1..])
  {
    hide StartsWith;
    assert forall i | 0 <= i < |w| :: w[1..][i..] == w[i + 1..];
  }

  lemma NoMatchInPlain(w: string, rest: string)
    requires NoMark(w) && w != "" && (rest == "" || !IsMarkChar(w[|w| - 1]) || !IsMarkChar(rest[0]))
    ensures MatchHere(w + rest).None?
  {
    NotOpened(w, rest);
    hide StartsWith;
  }

  lemma NotOpened(w: string, rest: string)
    requires NoMark(w) && w != "" && (rest == "" || !IsMarkChar(w[|w| - 1]) || !IsMarkChar(rest[0]))
    ensures !StartsWith(w + rest, TOOL_MARK)
  {
    hide MatchHere, IsMarkChar;
    var s := w + rest;
    assert w[0..] == w && s[0..] == s;
    if |w| >= |TOOL_MARK| {
      assert !StartsWith(w, TOOL_MARK);
      assert forall k | 0 <= k < |TOOL_MARK| :: s[k] == w[k];
    } else if StartsWith(s, TOOL_MARK) {
      MarkChars(s, 0, |w| - 1);
      MarkChars(s, 0, |w|);
    }
  }

  lemma {:induction false} NoBlocksInPlain(w: string, offset: nat)
    requires NoMark(w)
    ensures Blocks(w, offset) == []
  {
    BlocksAfterPlain(w, "", offset);
    assert w + "" == w;
  }

  /** Where the blocks of a rendered text lie. */
  function Expected(ps: seq<Piece>, offset: nat): seq<Block> {
    if ps == [] then []
    else
      var from := offset + |ps[0].gap|;
      var to := from + |Render(ps[0])|;
      [Block(from, to, ps[0].name, ps[0].args)] + Expected(ps[1..], to)
  }

  lemma {:induction false} BlocksOfFirst(p: Piece, rest: string, offset: nat)
    requires Renderable(p)
    ensures Blocks(Render(p) + rest, offset) ==
            [Block(offset, offset + |Render(p)|, p.name, p.args)] + Blocks(rest, offset + |Render(p)|)
  {
    hide MatchHere, Renderable, Render;
    MatchRendered(p, rest);
    assert (Render(p) + rest)[|Render(p)|..] == rest;
  }

  lemma RenderablePiece(p: Piece)
    requires Renderable(p)
    ensures Blank(p.gap) && !Blank(p.args)
  {
  }

  lemma {:induction false} BlocksOfRendered(ps: seq<Piece>, tail: string, offset: nat)
    requires (forall k | 0 <= k < |ps| :: Renderable(ps[k])) && NoMark(tail)
    ensures Blocks(RenderAll(ps, tail), offset) == Expected(ps, offset)
  {
    hide Blocks, Renderable, NoMark, RenderAll;
    forall at: nat
      ensures Blocks(tail, at) == []
    {
      NoBlocksInPlain(tail, at);
    }
    BlocksUpTo(ps, tail, offset);
  }

  /** The pieces of white space around the rendered calls. */
  function GapsOf(ps: seq<Piece>, tail: string): seq<string> {
    if ps == [] then [tail] else [ps[0].gap] + GapsOf(ps[1..], tail)
  }

  lemma {:induction false} GapsOfRendered(before: string, ps: seq<Piece>, tail: string)
    requires Ordered(Expected(ps, |before|), |before|, |before + RenderAll(ps, tail)|)
    ensures Gaps(before + RenderAll(ps, tail), Expected(ps, |before|), |before|) == GapsOf(ps, tail)
    decreases |ps|
  {
    hide Render;
    var raw := before + RenderAll(ps, tail);
    DropConcat(before, RenderAll(ps, tail));
    if ps != [] {
      var p := ps[0];
      var through := before + p.gap + Render(p);
      assert raw == through + RenderAll(ps[1..], tail);
      assert raw[|before|..|before| + |p.gap|] == p.gap;
      assert Expected(ps, |before|)[1..] == Expected(ps[1..], |through|);
      GapsOfRendered(through, ps[1..], tail);
    }
  }

  lemma {:induction false} GapsOfAreBlank(ps: seq<Piece>, tail: string)
    requires (forall k | 0 <= k < |ps| :: Blank(ps[k].gap)) && Blank(tail)
    ensures forall g | g in GapsOf(ps, tail) :: Blank(g)
  {
    hide Blank;
    if ps != [] { GapsOfAreBlank(ps[1..], tail); }
  }

  lemma {:induction false} JoinOfBlanks(pieces: seq<string>, separator: string)
    requires (forall g | g in pieces :: Blank(g)) && Blank(separator)
    ensures Blank(Join(pieces, separator))
  {
    if |pieces| > 1 {
      JoinOfBlanks(pieces[1..], separator);
      assert Blank(pieces[0]);
    } else if |pieces| == 1 {
      assert Blank(pieces[0]);
    }
  }

  lemma BlankHasNoMarker(s: string)
    requires Blank(s)
    ensures !HasMarker(s)
  {
  }

  /** No fence mark arises where two texts meet, unless both have a backtick there. */
  lemma {:induction false} TicksOfConcat(a: string, b: string)
    requires FindTicks(a).None? && FindTicks(b).None?
    requires a == "" || b == "" || b[0] != '`' || a[|a| - 1] != '`'
    ensures FindTicks(a + b).None?
  {
    if a == "" {
      assert a + b == b;
    } else if b == "" {
      assert a + b == a;
    } else {
      assert (a + b)[1..] == a[1..] + b;
      if |a + b| >= 3 {
        var w := (a + b)[..3];
        if |a| >= 3 {
          assert w == a[..3];
        } else {
          assert w[|a|] == b[0] && w[|a| - 1] == a[|a| - 1];
        }
      }
      TicksOfConcat(a[1..], b);
    }
  }

  lemma {:induction false} NoTicksWithoutBackticks(s: string)
    requires forall i | 0 <= i < |s| :: s[i] != '`'
    ensures FindTicks(s).None?
  {
    if |s| >= 3 {
      assert s[..3][0] == s[0];
      NoTicksWithoutBackticks(s[1..]);
    }
  }

  lemma NoTicksInOne(p: Piece, rest: string)
    requires Renderable(p) && FindTicks(rest).None?
    ensures FindTicks(p.gap + (Render(p) + rest)).None?
  {
    hide FindTicks, Render;
    var afterArgs := END_MARK + rest;
    NoTicksWithoutBackticks(END_MARK);
    TicksOfConcat(END_MARK, rest);
    var fromArgs := p.args + afterArgs;
    TicksOfConcat(p.args, afterArgs);
    NoTicksWithoutBackticks("\n");
    TicksOfConcat("\n", fromArgs);
    var body := "\n" + fromArgs;
    NoTicksWithoutBackticks(p.name);
    TicksOfConcat(p.name, body);
    NoTicksWithoutBackticks(" ");
    TicksOfConcat(" ", p.name + body);
    NoTicksWithoutBackticks(TOOL_MARK);
    TicksOfConcat(TOOL_MARK, " " + (p.name + body));
    RenderedShape(p, rest, body);
    NoTicksWithoutBackticks(p.gap);
    TicksOfConcat(p.gap, Render(p) + rest);
  }

  lemma {:induction false} NoTicksInRendered(ps: seq<Piece>, tail: string)
    requires (forall k | 0 <= k < |ps| :: Renderable(ps[k])) && Blank(tail)
    ensures FindTicks(RenderAll(ps, tail)).None?
  {
    if ps == [] {
      NoTicksWithoutBackticks(tail);
    } else {
      hide Renderable, FindTicks, Blank, Render;
      NoTicksInRendered(ps[1..], tail);
      NoTicksInOne(ps[0], RenderAll(ps[1..], tail));
    }
  }

  /** A piece that renders `c`, its arguments printed by `print`. */
  predicate Renders(p: Piece, c: Call, encode: map<string, string> -> string) {
    Renderable(p) && p.name == c.name && p.args == encode(c.arguments)
  }

  lemma {:induction false} DecodesBack(p: Piece, c: Call, start: nat, end: nat,
                                       encode: map<string, string> -> string, decode: string -> Option<Json>)
    requires Renders(p, c, encode) && decode(Strip(p.args)) == Some(Object(c.arguments))
    ensures Decode(decode, Block(start, end, p.name, p.args)) == Some(c)
  {
    hide Renderable, Blank, Strip;
    RenderablePiece(p);
    StripKeepsText(p.args);
  }

  lemma {:induction false} StripKeepsText(s: string)
    ensures Strip(s) == "" ==> Blank(s)
  {
    var t := s[Spaces(s)..];
    if StripRight(t) == "" {
      StripRightBlank(t);
    }
  }

  lemma {:induction false} StripRightBlank(t: string)
    requires StripRight(t) == ""
    ensures Blank(t)
  {
    if t != "" {
      StripRightBlank(t[..|t| - 1]);
      forall i | 0 <= i < |t|
        ensures IsSpace(t[i])
      {
        if i < |t| - 1 { assert t[..|t| - 1][i] == t[i]; }
      }
    }
  }

  lemma {:induction false} ExpectedAt(ps: seq<Piece>, offset: nat, k: nat)
    requires k < |ps|
    ensures |Expected(ps, offset)| == |ps|
    ensures Expected(ps, offset)[k].name == ps[k].name && Expected(ps, offset)[k].args == ps[k].args
  {
    hide Render;
    if k > 0 {
      ExpectedAt(ps[1..], offset + |ps[0].gap| + |Render(ps[0])|, k - 1);
    } else if |ps| > 1 {
      ExpectedAt(ps[1..], offset + |ps[0].gap| + |Render(ps[0])|, 0);
    }
  }

  lemma NoFencesWithoutTicks(s: string, at: nat)
    requires FindTicks(s).None?
    ensures !InFence(s, 0, at)
  {
  }

  /**
   The protocol round trip: rendering any non-empty list of calls, with white space around the blocks, gives a
   well-formed text whose calls are exactly that list, for every JSON printer the decoder inverts.
   */
  lemma {:induction false} RenderThenParse(calls: seq<Call>, ps: seq<Piece>, tail: string,
                                           encode: map<string, string> -> string, decode: string -> Option<Json>, prose: bool)
    requires |ps| == |calls| > 0 && Blank(tail)
    requires forall k | 0 <= k < |ps| :: Renders(ps[k], calls[k], encode)
    requires forall k | 0 <= k < |ps| :: decode(Strip(ps[k].args)) == Some(Object(calls[k].arguments))
    ensures WellFormed(RenderAll(ps, tail), decode, prose)
    ensures AreCallsOf(calls, RenderAll(ps, tail), decode)
  {
    hide Renderable, Decode, Blank, NoMark, HasMarker, InFence, Blocks, Expected, Gaps, Join, FindTicks, Ordered, Strip, GapsOf;
    hide RenderAll;
    var raw := RenderAll(ps, tail);
    var ms := Expected(ps, 0);
    forall k | 0 <= k < |ps|
      ensures Renderable(ps[k]) && Blank(ps[k].gap)
    {
      RenderablePiece(ps[k]);
    }
    BlankHasNoMark(tail);
    BlocksOfRendered(ps, tail, 0);
    BlocksAreOrdered(raw, 0);
    NoTicksInRendered(ps, tail);
    ExpectedAt(ps, 0, 0);
    forall k | 0 <= k < |ms|
      ensures Decode(decode, ms[k]) == Some(calls[k]) && !InFence(raw, 0, ms[k].start)
    {
      ExpectedAt(ps, 0, k);
      DecodesBack(ps[k], calls[k], ms[k].start, ms[k].end, encode, decode);
      NoFencesWithoutTicks(raw, ms[k].start);
    }
    EmptyPrefix(raw);
    GapsOfRendered("", ps, tail);
    GapsOfAreBlank(ps, tail);
    NewlineIsBlank();
    JoinOfBlanks(GapsOf(ps, tail), "\n");
    BlankHasNoMarker(Join(GapsOf(ps, tail), "\n"));
  }

  lemma EmptyPrefix(s: string)
    ensures "" + s == s
  {
  }

  lemma NewlineIsBlank()
    ensures Blank("\n")
  {
  }

  // ---- fences ----

  predicate TicksAt(s: string, i: nat) {
    i + 3 <= |s| && s[i] == '`' && s[i + 1] == '`' && s[i + 2] == '`'
  }

  predicate NoTicks(s: string) {
    forall i: nat | i < |s| :: !TicksAt(s, i)
  }

  /** The first triple backtick of `s` starts at `n`. */
  predicate TicksFirstAt(s: string, n: nat) {
    TicksAt(s, n) && forall i: nat | i < n :: !TicksAt(s, i)
  }

  lemma TicksInTail(s: string, i: nat)
    requires s != ""
    ensures TicksAt(s[1..], i) <==> TicksAt(s, i + 1)
  {
  }

  /** The search for fence marks finds the first one. */
  lemma {:induction false} FoundTicksAreFirst(s: string)
    ensures match FindTicks(s)
            case None => NoTicks(s)
            case Some(n) => TicksFirstAt(s, n)
  {
    if |s| < 3 {
      TooShortForTicks(s);
    } else if !TicksAt(s, 0) {
      FoundTicksAreFirst(s[1..]);
      hide TicksAt;
      forall i: nat | 0 < i
        ensures TicksAt(s, i) <==> TicksAt(s[1..], i - 1)
      {
        TicksInTail(s, i - 1);
      }
    }
  }

  lemma TooShortForTicks(s: string)
    requires |s| < 3
    ensures NoTicks(s)
  {
  }

  lemma FindTicksFinds(s: string, n: nat)
    requires TicksFirstAt(s, n)
    ensures FindTicks(s) == Some(n)
  {
    hide FindTicks, TicksAt;
    FoundTicksAreFirst(s);
    TicksNeedRoom(s, n);
  }

  lemma TicksNeedRoom(s: string, n: nat)
    requires TicksAt(s, n)
    ensures n < |s|
  {
  }

  lemma FindTicksFindsNone(s: string)
    requires NoTicks(s)
    ensures FindTicks(s).None?
  {
    hide FindTicks, TicksAt;
    FoundTicksAreFirst(s);
    if FindTicks(s).Some? { TicksNeedRoom(s, FindTicks(s).value); }
  }

  /** Text with two marks: what lies between them is fenced, and the rest goes by its own marks. */
  lemma FenceStep(a: string, b: string, c: string, offset: nat, at: nat)
    requires TicksFirstAt(a + ("```" + (b + ("```" + c))), |a|) && TicksFirstAt(b + ("```" + c), |b|)
    ensures var from, to := offset + |a|, offset + |a| + 3 + |b| + 3;
            InFence(a + ("```" + (b + ("```" + c))), offset, at) <==> from <= at < to || InFence(c, to, at)
  {
    hide FindTicks, TicksFirstAt;
    var rest := b + ("```" + c);
    var s := a + ("```" + rest);
    FindTicksFinds(s, |a|);
    AfterMark(a, rest);
    FindTicksFinds(rest, |b|);
    AfterMark(b, c);
    assert s[|a| + 3 + |b| + 3..] == s[|a| + 3..][|b| + 3..];
  }

  lemma NoMarksNoFence(s: string, offset: nat, at: nat)
    requires NoTicks(s)
    ensures !InFence(s, offset, at)
  {
    hide FindTicks, NoTicks;
    FindTicksFindsNone(s);
  }

  /** What a position between the first two marks, and one after them, means. */
  lemma FenceOfTwoMarks(a: string, b: string, c: string, at: nat)
    requires TicksFirstAt(a + ("```" + (b + ("```" + c))), |a|) && TicksFirstAt(b + ("```" + c), |b|)
    ensures var s := a + ("```" + (b + ("```" + c)));
            && (|a| <= at < |a| + 3 + |b| + 3 ==> InFence(s, 0, at))
            && (NoTicks(c) && !(|a| <= at < |a| + 3 + |b| + 3) ==> !InFence(s, 0, at))
  {
    hide InFence, TicksFirstAt, NoTicks;
    FenceStep(a, b, c, 0, at);
    if NoTicks(c) { NoMarksNoFence(c, |a| + 3 + |b| + 3, at); }
  }

  lemma AfterMark(a: string, rest: string)
    ensures (a + ("```" + rest))[|a| + 3..] == rest
  {
  }

  /**
   Fenced text is inert: when a block starts between the first two triple backticks of a text, nothing of the text is
   executed, whatever the decoder and with or without prose.
   */
  lemma FencedBlocksAreInert(a: string, b: string, c: string, m: Block, decode: string -> Option<Json>, prose: bool)
    requires TicksFirstAt(a + ("```" + (b + ("```" + c))), |a|) && TicksFirstAt(b + ("```" + c), |b|)
    requires m in Blocks(a + ("```" + (b + ("```" + c))), 0) && |a| <= m.start < |a| + 3 + |b| + 3
    ensures !WellFormed(a + ("```" + (b + ("```" + c))), decode, prose)
  {
    hide InFence, Blocks, AllDecode, AllBlank, HasMarker, Outside, Ordered, TicksFirstAt;
    FenceOfTwoMarks(a, b, c, m.start);
  }

  lemma TicksAfter(a: string, rest: string)
    requires FindTicks(a).None? && (a == "" || a[|a| - 1] != '`')
    ensures TicksFirstAt(a + ("```" + rest), |a|)
  {
    FoundTicksAreFirst(a);
    var s := a + ("```" + rest);
    forall i: nat | i < |a|
      ensures !TicksAt(s, i)
    {
      if i + 3 <= |a| {
        assert !TicksAt(a, i);
      } else {
        assert s[|a| - 1] == a[|a| - 1];
      }
    }
  }

  lemma {:induction false} EndOfRendered(ps: seq<Piece>, tail: string)
    requires Blank(tail) && ps != []
    ensures var s := RenderAll(ps, tail); s != "" && s[|s| - 1] != '`'
  {
    var p, rest := ps[0], RenderAll(ps[1..], tail);
    var s := p.gap + (Render(p) + rest);
    assert Render(p)[|Render(p)| - 1] == 'L';
    if |ps| > 1 {
      EndOfRendered(ps[1..], tail);
      assert s[|s| - 1] == rest[|rest| - 1];
    } else if tail != "" {
      assert s[|s| - 1] == tail[|tail| - 1] && IsSpace(tail[|tail| - 1]);
    } else {
      assert s[|s| - 1] == Render(p)[|Render(p)| - 1];
    }
  }

  /** The pieces of a text, with a triple backtick between them. */
  function Ticked(pieces: seq<string>): string
    requires pieces != []
  {
    if |pieces| == 1 then pieces[0] else pieces[0] + ("```" + Ticked(pieces[1..]))
  }

  /** The marks between the pieces are all the marks the text has. */
  predicate Separated(pieces: seq<string>)
    requires pieces != []
  {
    if |pieces| == 1 then NoTicks(pieces[0])
    else TicksFirstAt(Ticked(pieces), |pieces[0]|) && Separated(pieces[1..])
  }

  /** Where piece `k` starts. */
  function PieceStart(pieces: seq<string>, k: nat): nat
    requires k < |pieces|
  {
    if k == 0 then 0 else |pieces[0]| + 3 + PieceStart(pieces[1..], k - 1)
  }

  function Pieces(s: string): (r: seq<string>)
    ensures r != []
  {
    match FindTicks(s)
    case None => [s]
    case Some(i) => [s[..i]] + Pieces(s[i + 3..])
  }

  lemma MarkAt(s: string, i: nat)
    requires TicksFirstAt(s, i)
    ensures i + 3 <= |s| && s == s[..i] + ("```" + s[i + 3..])
  {
    assert s[i..i + 3] == [s[i], s[i + 1], s[i + 2]];
    assert s == s[..i] + (s[i..i + 3] + s[i + 3..]);
  }

  /** Every text is pieces with its marks between them. */
  lemma {:induction false} EveryTextIsTicked(s: string)
    ensures Ticked(Pieces(s)) == s && Separated(Pieces(s))
  {
    hide FindTicks, NoTicks, TicksFirstAt, TicksAt;
    FoundTicksAreFirst(s);
    var at := FindTicks(s);
    if at.Some? {
      var i := at.value;
      EveryTextIsTicked(s[i + 3..]);
      assert Pieces(s)[1..] == Pieces(s[i + 3..]);
      MarkAt(s, i);
    }
  }

  lemma {:induction false} NotFencedBefore(s: string, offset: nat, at: nat)
    ensures at < offset ==> !InFence(s, offset, at)
    decreases |s|
  {
    hide FindTicks;
    var i := FindTicks(s);
    if i.Some? {
      var j := FindTicks(s[i.value + 3..]);
      if j.Some? {
        var close := i.value + 3 + j.value + 3;
        NotFencedBefore(s[close..], offset + close, at);
      }
    }
  }

  /** A position in a piece lies in a fence exactly when an odd number of marks precedes it and another one follows. */
  lemma {:induction false} FencedExactlyWhen(pieces: seq<string>, offset: nat, k: nat, j: nat)
    requires pieces != [] && Separated(pieces) && k < |pieces| && j < |pieces[k]|
    ensures InFence(Ticked(pieces), offset, offset + PieceStart(pieces, k) + j) <==> k % 2 == 1 && k + 1 < |pieces|
    decreases |pieces|
  {
    hide InFence, TicksFirstAt, NoTicks, Ticked, Separated, PieceStart;
    var at := offset + PieceStart(pieces, k) + j;
    if |pieces| == 1 {
      OnePiece(pieces);
      NoMarksNoFence(pieces[0], offset, at);
    } else if |pieces| == 2 {
      TwoPieces(pieces);
      OneMarkFencesNothing(pieces[0], pieces[1], offset, at);
    } else {
      var later := pieces[2..];
      MorePieces(pieces);
      PiecesStart(pieces, k);
      FenceStep(pieces[0], pieces[1], Ticked(later), offset, at);
      var close := offset + |pieces[0]| + 3 + |pieces[1]| + 3;
      NotFencedBefore(Ticked(later), close, at);
      if k >= 2 { FencedExactlyWhen(later, close, k - 2, j); }
    }
  }

  lemma OnePiece(pieces: seq<string>)
    requires |pieces| == 1 && Separated(pieces)
    ensures Ticked(pieces) == pieces[0] && NoTicks(pieces[0])
  {
  }

  lemma TwoPieces(pieces: seq<string>)
    requires |pieces| == 2 && Separated(pieces)
    ensures Ticked(pieces) == pieces[0] + ("```" + pieces[1])
    ensures TicksFirstAt(Ticked(pieces), |pieces[0]|) && NoTicks(pieces[1])
  {
    hide TicksFirstAt, NoTicks;
    OnePiece(pieces[1..]);
  }

  lemma MorePieces(pieces: seq<string>)
    requires |pieces| >= 3 && Separated(pieces)
    ensures var rest := pieces[1] + ("```" + Ticked(pieces[2..]));
            && Ticked(pieces) == pieces[0] + ("```" + rest) && Separated(pieces[2..])
            && TicksFirstAt(Ticked(pieces), |pieces[0]|) && TicksFirstAt(rest, |pieces[1]|)
  {
    hide TicksFirstAt, NoTicks;
    assert pieces[1..][1..] == pieces[2..];
    assert Separated(pieces[1..]);
  }

  lemma PiecesStart(pieces: seq<string>, k: nat)
    requires |pieces| >= 3 && k < |pieces|
    ensures PieceStart(pieces, k) == if k == 0 then 0
                                     else if k == 1 then |pieces[0]| + 3
                                     else |pieces[0]| + 3 + |pieces[1]| + 3 + PieceStart(pieces[2..], k - 2)
  {
    assert pieces[1..][1..] == pieces[2..];
    if k >= 2 { assert PieceStart(pieces[1..], k - 1) == |pieces[1]| + 3 + PieceStart(pieces[2..], k - 2); }
  }

  lemma OneMarkFencesNothing(x: string, rest: string, offset: nat, at: nat)
    requires TicksFirstAt(x + ("```" + rest), |x|) && NoTicks(rest)
    ensures !InFence(x + ("```" + rest), offset, at)
  {
    hide FindTicks, TicksFirstAt, NoTicks;
    FindTicksFinds(x + ("```" + rest), |x|);
    AfterMark(x, rest);
    FindTicksFindsNone(rest);
  }

  /** When a block starts in any closed fence, nothing of the text is executed. */
  lemma BlocksInAnyFenceAreInert(pieces: seq<string>, k: nat, m: Block, decode: string -> Option<Json>, prose: bool)
    requires pieces != [] && Separated(pieces) && k % 2 == 1 && k + 1 < |pieces|
    requires m in Blocks(Ticked(pieces), 0)
    requires PieceStart(pieces, k) <= m.start < PieceStart(pieces, k) + |pieces[k]|
    ensures !WellFormed(Ticked(pieces), decode, prose)
  {
    hide InFence, Blocks, AllDecode, AllBlank, HasMarker, Outside, Ordered, Separated, PieceStart, Ticked;
    FencedExactlyWhen(pieces, 0, k, m.start - PieceStart(pieces, k));
  }

  /** Rendered calls between two marks are never executed: a documentation example stays an example. */
  lemma RenderedExamplesAreInert(a: string, ps: seq<Piece>, tail: string, c: string, decode: string -> Option<Json>,
                                 prose: bool)
    requires ps != [] && (forall k | 0 <= k < |ps| :: Renderable(ps[k])) && Blank(tail)
    requires NoMark(a) && TicksFirstAt(a + ("```" + (RenderAll(ps, tail) + ("```" + c))), |a|)
    ensures !WellFormed(a + ("```" + (RenderAll(ps, tail) + ("```" + c))), decode, prose)
  {
    hide NoMark, WellFormed, FindTicks, Renderable, Render, RenderAll, Blocks, Blank, TicksFirstAt, InFence;
    var b := RenderAll(ps, tail);
    NoTicksInRendered(ps, tail);
    EndOfRendered(ps, tail);
    TicksAfter(b, c);
    var more := RenderAll(ps[1..], tail) + ("```" + c);
    FirstOfRendered(ps, tail, "```" + c);
    FirstBlockOfExample(a, ps[0], more);
    FirstInside(ps, tail);
    FencedBlocksAreInert(a, b, c, Blocks(a + ("```" + (b + ("```" + c))), 0)[0], decode, prose);
  }

  lemma FirstOfRendered(ps: seq<Piece>, tail: string, more: string)
    requires ps != []
    ensures RenderAll(ps, tail) + more == ps[0].gap + (Render(ps[0]) + (RenderAll(ps[1..], tail) + more))
  {
    hide Render;
    FourParts(ps[0].gap, Render(ps[0]), RenderAll(ps[1..], tail), more);
  }

  lemma FirstBlockOfExample(a: string, p: Piece, more: string)
    requires NoMark(a) && Renderable(p)
    ensures var ms := Blocks(a + ("```" + (p.gap + (Render(p) + more))), 0);
            ms != [] && ms[0].start == |a| + 3 + |p.gap|
  {
    hide NoMark, Renderable, Render, Blocks, Blank, IsMarkChar;
    var inner := p.gap + (Render(p) + more);
    RenderablePiece(p);
    TicksAreSkipped(a, inner);
    BlocksAfterBlank(p.gap, Render(p) + more, |a| + 3);
    BlocksOfFirst(p, more, |a| + 3 + |p.gap|);
  }

  lemma TicksAreSkipped(a: string, inner: string)
    requires NoMark(a)
    ensures Blocks(a + ("```" + inner), 0) == Blocks(inner, |a| + 3)
  {
    hide NoMark, Blocks, IsMarkChar;
    TicksHaveNoMark();
    BlocksAfterPlain(a, "```" + inner, 0);
    BlocksAfterPlain("```", inner, |a|);
  }

  lemma FirstInside(ps: seq<Piece>, tail: string)
    requires ps != []
    ensures |ps[0].gap| < |RenderAll(ps, tail)|
  {
  }

  lemma TicksHaveNoMark()
    ensures NoMark("```") && !IsMarkChar('`')
  {
    forall i | 0 <= i <= 3
      ensures !StartsWith("```"[i..], TOOL_MARK)
    {
    }
  }
  /** A documented call. */
  const EXAMPLE: string := "TOOL_CALL ls\n{}\nEND_TOOL_CALL"

  lemma ExampleIsRendered()
    ensures var p := Piece("", "ls", "{}"); Renderable(p) && RenderAll([p], "") == EXAMPLE
  {
    hide FindTicks, Render, IsSpace;
    var p := Piece("", "ls", "{}");
    NoTicksWithoutBackticks(p.args);
    assert p.args[0] == '{' && !IsSpace('{') by { CharacterClasses('{'); }
    ExampleText(p);
    assert [p][1..] == [];
    assert RenderAll([p], "") == "" + (Render(p) + "");
  }

  lemma ExampleText(p: Piece)
    requires p == Piece("", "ls", "{}")
    ensures Render(p) == EXAMPLE
  {
    var ended := p.args + END_MARK;
    assert ended == "{}\nEND_TOOL_CALL";
    var below := "\n" + ended;
    assert below == "\n{}\nEND_TOOL_CALL";
    NamedExample(p.name, below);
  }

  lemma NamedExample(name: string, below: string)
    requires name == "ls" && below == "\n{}\nEND_TOOL_CALL"
    ensures TOOL_MARK + (" " + (name + below)) == EXAMPLE
  {
    assert TOOL_MARK + (" " + (name + below)) == "TOOL_CALL ls" + below;
  }

  /** The documented call is parsed; between two fence marks it is not. */
  method ParseTheExample(decode: string -> Option<Json>, prose: bool) returns (calls: seq<Call>, fenced: seq<Call>)
    requires decode(Strip("{}")) == Some(Object(map[]))
    ensures calls == [Call("ls", map[])] && fenced == []
  {
    hide Renderable, Render, RenderAll, WellFormed, AreDecoded, Blocks, FindTicks, TicksFirstAt, Strip, NoMark;
    ghost var p := Piece("", "ls", "{}");
    ExampleIsRendered();
    NothingIsBlank();
    ghost var wanted := Call("ls", map[]);
    RenderThenParse([wanted], [p], "", _ => "{}", decode, prose);
    calls := ParseSequence(EXAMPLE, decode, prose);
    SameCalls(calls, [wanted], Blocks(EXAMPLE, 0), decode);
    BlankHasNoMark("");
    FindTicksStart();
    RenderedExamplesAreInert("", [p], "", "", decode, prose);
    EmptyPrefix("```" + (EXAMPLE + ("```" + "")));
    fenced := ParseSequence("```" + (EXAMPLE + ("```" + "")), decode, prose);
  }

  lemma SameCalls(a: seq<Call>, b: seq<Call>, ms: seq<Block>, decode: string -> Option<Json>)
    requires AreDecoded(a, ms, decode) && AreDecoded(b, ms, decode)
    ensures a == b
  {
    hide Decode;
    forall k | 0 <= k < |a|
      ensures a[k] == b[k]
    {
      assert Decode(decode, ms[k]) == Some(a[k]);
    }
  }

  lemma FindTicksStart()
    ensures TicksFirstAt("" + ("```" + (EXAMPLE + ("```" + ""))), 0)
  {
  }

  // ---- unfinished calls ----

  /** A line of `g` that starts at `i` opens a call: after white space up to `j` comes the word and white space. */
  predicate OpensAt(g: string, i: nat, j: nat) {
    && i <= j && j + |TOOL_MARK| < |g| && (i == 0 || g[i - 1] == '\n')
    && Blank(g[i..j]) && StartsWith(g[j..], "TOOL_CALL") && IsSpace(g[j + |TOOL_MARK|])
  }

  lemma OpensAMarker(g: string, i: nat, j: nat, post: string)
    requires OpensAt(g, i, j)
    ensures MarkerAt(g[i..] + post)
  {
    var s, gap, t := g[i..] + post, g[i..j], g[j..] + post;
    assert s == gap + t;
    assert Fold(t[0]) == 'T';
    SpacesOf(gap, t);
    assert s[Spaces(s)..] == t;
    assert forall k | 0 <= k < |TOOL_MARK| :: t[k] == g[j..][k];
    assert t[|TOOL_MARK|..][0] == g[j + |TOOL_MARK|];
  }

  /** A marker in one of the pieces is a marker of the joined text. */
  lemma {:induction false} MarkerInJoin(before: string, pieces: seq<string>, k: nat, i: nat, j: nat)
    requires k < |pieces| && OpensAt(pieces[k], i, j) && (before == "" || before[|before| - 1] == '\n')
    ensures HasMarker(before + Join(pieces, "\n"))
    decreases |pieces|
  {
    hide MarkerAt, OpensAt;
    var g, all := pieces[0], before + Join(pieces, "\n");
    if k > 0 {
      MarkerInJoin(before + g + "\n", pieces[1..], k - 1, i, j);
      assert before + g + "\n" + Join(pieces[1..], "\n") == all;
    } else {
      var post := if |pieces| == 1 then "" else "\n" + Join(pieces[1..], "\n");
      assert Join(pieces, "\n") == g + post;
      OpensAMarker(g, i, j, post);
      OpensInside(g, i, j);
      assert all[|before| + i..] == g[i..] + post;
    }
  }

  lemma OpensInside(g: string, i: nat, j: nat)
    requires OpensAt(g, i, j)
    ensures i < |g| && (i == 0 || g[i - 1] == '\n')
  {
  }

  /**
   A line outside the blocks that opens a call, so an unfinished or malformed one, rejects the whole text, whatever the
   decoder and with or without prose.
   */
  lemma LeftoverMarkersReject(raw: string, k: nat, i: nat, j: nat, decode: string -> Option<Json>, prose: bool)
    requires Ordered(Blocks(raw, 0), 0, |raw|) && k < |Outside(raw, Blocks(raw, 0))|
    requires OpensAt(Outside(raw, Blocks(raw, 0))[k], i, j)
    ensures !WellFormed(raw, decode, prose)
  {
    hide InFence, Blocks, AllDecode, AllBlank, HasMarker, Outside, Ordered, OpensAt, SomeInFence, Join;
    MarkerInJoin("", Outside(raw, Blocks(raw, 0)), k, i, j);
    EmptyPrefix(Join(Outside(raw, Blocks(raw, 0)), "\n"));
  }

  /** The word that ends a call holds the word that opens one. */
  lemma NoEndHere(s: string, n: nat)
    requires n <= |s| && !StartsWith(s[n..], TOOL_MARK)
    ensures n >= 5 ==> !StartsWith(s[n - 5..], END_MARK)
    ensures n >= 4 ==> !StartsWith(s[n - 4..], END_MARK[1..])
  {
    if n >= 4 && n + |TOOL_MARK| <= |s| {
      var k :| 0 <= k < |TOOL_MARK| && Fold(s[n..][k]) != TOOL_MARK[k];
      assert END_MARK[k + 5] == TOOL_MARK[k] && END_MARK[1..][k + 4] == TOOL_MARK[k];
      assert s[n - 4..][k + 4] == s[n..][k];
      if n >= 5 { assert s[n - 5..][k + 5] == s[n..][k]; }
    }
  }

  lemma {:induction false} NoEndWithoutMark(s: string)
    requires NoMark(s)
    ensures FindEnd(s).None?
  {
    if s != "" {
      if |s| >= 5 { NoEndHere(s, 5); }
      hide StartsWith;
      assert |s| >= 5 ==> s[0..] == s;
      NoMarkInTail(s);
      NoEndWithoutMark(s[1..]);
    }
  }

  lemma NoMarkInSuffix(s: string, n: nat)
    requires NoMark(s) && n <= |s|
    ensures NoMark(s[n..])
  {
    hide StartsWith;
    assert forall i | 0 <= i <= |s| - n :: s[n..][i..] == s[n + i..];
  }

  lemma {:induction false} NoArgsWithoutEnd(body: string, d: nat)
    requires NoMark(body) && d <= |body|
    ensures ArgsStart(body, d).None?
    decreases d
  {
    hide NoMark;
    if d > 0 {
      NoMarkInSuffix(body, d);
      NoEndWithoutMark(body[d..]);
      NoArgsWithoutEnd(body, d - 1);
    }
  }

  lemma UnfinishedIsNoMatch(rest: string)
    requires NoMark(rest)
    ensures MatchHere("TOOL_CALL " + rest).None?
  {
    hide NoMark, StartsWith, Spaces, NameChars, ArgsStart, FindEnd;
    var s := "TOOL_CALL " + rest;
    var gapped := " " + rest;
    WordAndRest(rest);
    var gap := Spaces(gapped);
    var n := NameChars(gapped[gap..]);
    if gap > 0 {
      DroppedTwice(rest, gap, n);
      NoMarkInSuffix(rest, gap - 1 + n);
      NoArgsWithoutEnd(rest[gap - 1 + n..], Spaces(rest[gap - 1 + n..]));
    }
  }

  lemma WordAndRest(rest: string)
    ensures ("TOOL_CALL " + rest)[|TOOL_MARK|..] == " " + rest
  {
  }

  lemma DroppedTwice(rest: string, gap: nat, n: nat)
    requires 0 < gap && gap + n <= |rest| + 1
    ensures (" " + rest)[gap..][n..] == rest[gap - 1 + n..]
  {
  }

  /** Rendered calls followed by one that never ends are rejected as a whole: nothing is executed partially. */
  lemma {:induction false} UnfinishedCallRejectsAll(ps: seq<Piece>, rest: string, decode: string -> Option<Json>,
                                                    prose: bool)
    requires (forall k | 0 <= k < |ps| :: Renderable(ps[k])) && NoMark(rest)
    ensures !WellFormed(RenderAll(ps, "\n" + ("TOOL_CALL " + rest)), decode, prose)
  {
    hide Renderable, Render, Blocks, NoMark, MatchHere, WellFormed, Ordered, Gaps, RenderAll, OpensAt, Outside;
    var tail := "\n" + ("TOOL_CALL " + rest);
    var raw, ms := RenderAll(ps, tail), Expected(ps, 0);
    forall at: nat
      ensures Blocks(tail, at) == []
    {
      NoBlocksInUnfinished(rest, at);
    }
    BlocksUpTo(ps, tail, 0);
    BlocksFitTheText(raw);
    EmptyPrefix(raw);
    GapsOfRendered("", ps, tail);
    LastGap(ps, tail);
    TailOpens(rest);
    OutsideIsGaps(raw, ms);
    LeftoverMarkersReject(raw, |ps|, 1, 1, decode, prose);
  }

  lemma OutsideIsGaps(raw: string, ms: seq<Block>)
    requires Ordered(ms, 0, |raw|)
    ensures Outside(raw, ms) == Gaps(raw, ms, 0)
  {
  }

  lemma {:induction false} NoBlocksInUnfinished(rest: string, offset: nat)
    requires NoMark(rest)
    ensures Blocks("\n" + ("TOOL_CALL " + rest), offset) == []
  {
    hide NoMark, MatchHere, IsMarkChar;
    NewlineIsBlank();
    BlocksAfterBlank("\n", "TOOL_CALL " + rest, offset);
    UnfinishedIsNoMatch(rest);
    var word := "OOL_CALL ";
    assert ("TOOL_CALL " + rest)[1..] == word + rest;
    WordWithoutItsStart();
    BlocksAfterPlain(word, rest, offset + 2);
    NoBlocksInPlain(rest, offset + 2 + |word|);
  }

  lemma WordWithoutItsStart()
    ensures NoMark("OOL_CALL ") && !IsMarkChar(' ')
  {
    var s := "OOL_CALL ";
    forall i | 0 <= i <= |s|
      ensures !StartsWith(s[i..], TOOL_MARK)
    {
      if i == 0 { assert Fold(s[0..][0]) != TOOL_MARK[0]; }
    }
  }

  lemma {:induction false} BlocksUpTo(ps: seq<Piece>, tail: string, offset: nat)
    requires (forall k | 0 <= k < |ps| :: Renderable(ps[k])) && forall at: nat :: Blocks(tail, at) == []
    ensures Blocks(RenderAll(ps, tail), offset) == Expected(ps, offset)
  {
    hide Blocks, Blank, Renderable, Render;
    if ps != [] {
      var p, rest := ps[0], RenderAll(ps[1..], tail);
      RenderablePiece(p);
      BlocksAfterBlank(p.gap, Render(p) + rest, offset);
      BlocksOfFirst(p, rest, offset + |p.gap|);
      BlocksUpTo(ps[1..], tail, offset + |p.gap| + |Render(p)|);
    }
  }

  lemma {:induction false} LastGap(ps: seq<Piece>, tail: string)
    ensures |GapsOf(ps, tail)| == |ps| + 1 && GapsOf(ps, tail)[|ps|] == tail
  {
    if ps != [] { LastGap(ps[1..], tail); }
  }

  lemma TailOpens(rest: string)
    ensures OpensAt("\n" + ("TOOL_CALL " + rest), 1, 1)
  {
    var g := "\n" + ("TOOL_CALL " + rest);
    assert g[1..1] == "" && g[0] == '\n' && g[10] == ' ';
    assert g[1..] == "TOOL_CALL " + rest;
    assert forall k | 0 <= k < 9 :: g[1..][k] == TOOL_MARK[k];
  }

  // ---- prose around calls ----

  lemma {:induction false} NoMarkJoin(pieces: seq<string>)
    requires forall g | g in pieces :: NoMark(g)
    ensures NoMark(Join(pieces, "\n"))
  {
    hide NoMark, IsMarkChar;
    NewlineIsBlank();
    BlankHasNoMark("\n");
    NewlineIsNoMarkChar();
    if pieces == [] {
      NothingIsBlank();
      BlankHasNoMark("");
    } else if |pieces| > 1 {
      NoMarkJoin(pieces[1..]);
      NoMarkConcat(pieces[0], "\n");
      NoMarkConcat(pieces[0] + "\n", Join(pieces[1..], "\n"));
    } else {
      assert pieces[0] in pieces;
    }
  }

  lemma NewlineIsNoMarkChar()
    ensures !IsMarkChar('\n')
  {
  }

  lemma NoMarkNoMarker(s: string)
    requires NoMark(s)
    ensures !HasMarker(s)
  {
    hide NoMark;
    forall i | 0 <= i <= |s|
      ensures !MarkerAt(s[i..])
    {
      var j := i + Spaces(s[i..]);
      assert s[i..][Spaces(s[i..])..] == s[j..];
      NotMarkedAt(s, j);
    }
  }

  lemma NotMarkedAt(s: string, j: nat)
    requires NoMark(s) && j <= |s|
    ensures !StartsWith(s[j..], TOOL_MARK) && !StartsWith(s[j..], END_MARK[1..])
  {
    if j + 4 <= |s| { NoEndHere(s, j + 4); }
  }

  lemma {:induction false} GapsHaveNoMark(ps: seq<Piece>, tail: string)
    requires (forall k | 0 <= k < |ps| :: Blank(ps[k].gap)) && NoMark(tail)
    ensures forall g | g in GapsOf(ps, tail) :: NoMark(g)
  {
    hide NoMark, Blank;
    if ps != [] {
      BlankHasNoMark(ps[0].gap);
      GapsHaveNoMark(ps[1..], tail);
    }
  }

  /** Prose before the first block belongs to the first piece. */
  lemma GapsAfterProse(raw: string, ms: seq<Block>, cursor: nat)
    requires Ordered(ms, cursor, |raw|)
    ensures Ordered(ms, 0, |raw|) && cursor <= |raw|
    ensures Gaps(raw, ms, 0) == [raw[..cursor] + Gaps(raw, ms, cursor)[0]] + Gaps(raw, ms, cursor)[1..]
  {
    OrderedBounds(ms, cursor, |raw|);
    OrderedFrom(ms, 0, cursor, |raw|);
    if ms == [] {
      assert raw[0..] == raw[..cursor] + raw[cursor..];
    } else {
      var first := ms[0].start;
      assert raw[0..first] == raw[..cursor] + raw[cursor..first];
      assert Gaps(raw, ms, cursor)[1..] == Gaps(raw, ms[1..], ms[0].end);
    }
  }

  /** Prose that holds no opening word, before and after the calls, is tolerated where no fence covers a call. */
  lemma {:induction false} ProseIsTolerated(pre: string, calls: seq<Call>, ps: seq<Piece>, tail: string,
                                            encode: map<string, string> -> string, decode: string -> Option<Json>)
    requires |ps| == |calls| > 0 && NoMark(pre) && NoMark(tail) && (pre == "" || !IsMarkChar(pre[|pre| - 1]))
    requires forall k | 0 <= k < |ps| :: Renders(ps[k], calls[k], encode)
    requires forall k | 0 <= k < |ps| :: decode(Strip(ps[k].args)) == Some(Object(calls[k].arguments))
    requires forall at: nat | |pre| <= at :: !InFence(pre + RenderAll(ps, tail), 0, at)
    ensures WellFormed(pre + RenderAll(ps, tail), decode, true)
    ensures AreCallsOf(calls, pre + RenderAll(ps, tail), decode)
  {
    hide Renderable, Decode, Blank, NoMark, HasMarker, InFence, Blocks, Gaps, Join, Ordered, Strip, GapsOf;
    hide RenderAll, IsMarkChar;
    var raw, ms := pre + RenderAll(ps, tail), Expected(ps, |pre|);
    forall k | 0 <= k < |ps|
      ensures Renderable(ps[k]) && Blank(ps[k].gap)
    {
      RenderablePiece(ps[k]);
    }
    BlocksAfterPlain(pre, RenderAll(ps, tail), 0);
    BlocksOfRendered(ps, tail, |pre|);
    BlocksAreOrdered(RenderAll(ps, tail), |pre|);
    ExpectedAt(ps, |pre|, 0);
    forall k | 0 <= k < |ms|
      ensures Decode(decode, ms[k]) == Some(calls[k]) && !InFence(raw, 0, ms[k].start)
    {
      ExpectedAt(ps, |pre|, k);
      ExpectedAfter(ps, |pre|, k);
      DecodesBack(ps[k], calls[k], ms[k].start, ms[k].end, encode, decode);
    }
    GapsOfRendered(pre, ps, tail);
    GapsAfterProse(raw, ms, |pre|);
    PiecesHaveNoMark(pre, ps, tail, raw[..|pre|]);
    assert raw[..|pre|] == pre;
    NoMarkNoMarker(Join(Gaps(raw, ms, 0), "\n"));
  }

  lemma {:induction false} ExpectedAfter(ps: seq<Piece>, offset: nat, k: nat)
    requires k < |Expected(ps, offset)|
    ensures offset <= Expected(ps, offset)[k].start
  {
    hide Render;
    if k > 0 { ExpectedAfter(ps[1..], offset + |ps[0].gap| + |Render(ps[0])|, k - 1); }
  }

  lemma PiecesHaveNoMark(pre: string, ps: seq<Piece>, tail: string, same: string)
    requires ps != [] && NoMark(pre) && NoMark(tail) && (forall k | 0 <= k < |ps| :: Blank(ps[k].gap)) && same == pre
    ensures var gaps := GapsOf(ps, tail); NoMark(Join([same + gaps[0]] + gaps[1..], "\n"))
  {
    hide NoMark, Join, IsMarkChar;
    var gaps := GapsOf(ps, tail);
    GapsHaveNoMark(ps, tail);
    assert gaps[0] == ps[0].gap && gaps[0] in gaps;
    BlankIsNoMarkChar(gaps[0]);
    NoMarkConcat(pre, gaps[0]);
    NoMarkJoin([same + gaps[0]] + gaps[1..]);
  }

  lemma BlankIsNoMarkChar(s: string)
    requires Blank(s)
    ensures s == "" || !IsMarkChar(s[0])
  {
  }

  lemma {:induction false} RenderedBefore(ps: seq<Piece>, tail: string, more: string)
    ensures RenderAll(ps, tail + more) == RenderAll(ps, tail) + more
  {
    hide Render;
    if ps != [] {
      RenderedBefore(ps[1..], tail, more);
      FourParts(ps[0].gap, Render(ps[0]), RenderAll(ps[1..], tail), more);
    }
  }

  lemma FourParts(a: string, b: string, c: string, d: string)
    ensures a + (b + (c + d)) == a + (b + c) + d
  {
  }

  /** A mark that is never closed makes no fence: the calls before it are executed. */
  lemma {:induction false} CallsBeforeAnUnclosedMark(calls: seq<Call>, ps: seq<Piece>, note: string,
                                                     encode: map<string, string> -> string,
                                                     decode: string -> Option<Json>)
    requires |ps| == |calls| > 0 && NoMark(note) && NoTicks(note)
    requires forall k | 0 <= k < |ps| :: Renders(ps[k], calls[k], encode)
    requires forall k | 0 <= k < |ps| :: decode(Strip(ps[k].args)) == Some(Object(calls[k].arguments))
    ensures var raw := RenderAll(ps, "\n" + ("```" + note));
            WellFormed(raw, decode, true) && AreCallsOf(calls, raw, decode)
  {
    hide Renderable, NoMark, NoTicks, WellFormed, AreDecoded, FindTicks, Strip, RenderAll, Blank, IsMarkChar, InFence;
    var tail := "\n" + ("```" + note);
    var x, raw := RenderAll(ps, "\n"), RenderAll(ps, tail);
    NewlineIsBlank();
    RenderedBefore(ps, "\n", "```" + note);
    NoTicksInRendered(ps, "\n");
    EndOfRendered(ps, "\n");
    TicksAfter(x, note);
    NoteHasNoMark(note);
    forall at: nat
      ensures !InFence(raw, 0, at)
    {
      OneMarkFencesNothing(x, note, 0, at);
    }
    NothingIsBlank();
    BlankHasNoMark("");
    EmptyPrefix(raw);
    ProseIsTolerated("", calls, ps, tail, encode, decode);
  }

  lemma NoteHasNoMark(note: string)
    requires NoMark(note)
    ensures NoMark("\n" + ("```" + note))
  {
    hide NoMark, IsMarkChar;
    TicksHaveNoMark();
    NoMarkConcat("```", note);
    NewlineIsBlank();
    BlankHasNoMark("\n");
    NewlineIsNoMarkChar();
    NoMarkConcat("\n", "```" + note);
  }

  /** A closed fence ends where it is closed: the calls after it are executed. */
  lemma {:induction false} CallsAfterAClosedFence(a: string, doc: string, calls: seq<Call>, ps: seq<Piece>, tail: string,
                                                  encode: map<string, string> -> string,
                                                  decode: string -> Option<Json>)
    requires |ps| == |calls| > 0 && NoMark(a) && NoMark(doc) && Blank(tail)
    requires forall k | 0 <= k < |ps| :: Renders(ps[k], calls[k], encode)
    requires forall k | 0 <= k < |ps| :: decode(Strip(ps[k].args)) == Some(Object(calls[k].arguments))
    requires var c := "\n" + RenderAll(ps, tail);
             TicksFirstAt(a + ("```" + (doc + ("```" + c))), |a|) && TicksFirstAt(doc + ("```" + c), |doc|)
    ensures var raw := a + ("```" + (doc + ("```" + ("\n" + RenderAll(ps, tail)))));
            WellFormed(raw, decode, true) && AreCallsOf(calls, raw, decode)
  {
    hide Renderable, NoMark, NoTicks, WellFormed, AreDecoded, FindTicks, Strip, RenderAll, Blank, IsMarkChar, InFence;
    hide TicksFirstAt;
    var c := "\n" + RenderAll(ps, tail);
    var pre := a + ("```" + (doc + ("```" + "\n")));
    var raw := a + ("```" + (doc + ("```" + c)));
    assert raw == pre + RenderAll(ps, tail);
    AfterFenceNoTicks(ps, tail);
    forall at: nat | |pre| <= at
      ensures !InFence(raw, 0, at)
    {
      FenceOfTwoMarks(a, doc, c, at);
    }
    FenceHasNoMark(a, doc);
    BlankHasNoMark(tail);
    ProseIsTolerated(pre, calls, ps, tail, encode, decode);
  }

  lemma AfterFenceNoTicks(ps: seq<Piece>, tail: string)
    requires (forall k | 0 <= k < |ps| :: Renderable(ps[k])) && Blank(tail)
    ensures NoTicks("\n" + RenderAll(ps, tail))
  {
    hide FindTicks, RenderAll, NoTicks, Renderable;
    NoTicksInRendered(ps, tail);
    NoTicksWithoutBackticks("\n");
    TicksOfConcat("\n", RenderAll(ps, tail));
    FoundTicksAreFirst("\n" + RenderAll(ps, tail));
  }

  lemma FenceHasNoMark(a: string, doc: string)
    requires NoMark(a) && NoMark(doc)
    ensures var pre := a + ("```" + (doc + ("```" + "\n")));
            NoMark(pre) && !IsMarkChar(pre[|pre| - 1])
  {
    hide NoMark, IsMarkChar;
    TicksHaveNoMark();
    NewlineIsBlank();
    BlankHasNoMark("\n");
    NewlineIsNoMarkChar();
    NoMarkConcat("```", "\n");
    NoMarkConcat(doc, "```" + "\n");
    NoMarkConcat("```", doc + ("```" + "\n"));
    NoMarkConcat(a, "```" + (doc + ("```" + "\n")));
  }

  // ---- stripping ----

  /** `TEXT_TOOL_V2_BLOCK_RE.sub("", raw)`: the text with its blocks removed. */
  function RemoveBlocks(raw: string): string {
    BlocksFitTheText(raw);
    Join(Outside(raw, Blocks(raw, 0)), "")
  }

  /** The text put together from the pieces outside the blocks and the blocks themselves. */
  function Weave(raw: string, ms: seq<Block>, gaps: seq<string>, cursor: nat): string
    requires Ordered(ms, cursor, |raw|) && |gaps| == |ms| + 1
    decreases |ms|
  {
    OrderedBounds(ms, cursor, |raw|);
    if ms == [] then gaps[0]
    else gaps[0] + raw[ms[0].start..ms[0].end] + Weave(raw, ms[1..], gaps[1..], ms[0].end)
  }

  lemma ThreeParts(s: string, a: nat, b: nat, c: nat)
    requires a <= b <= c <= |s|
    ensures s[a..] == s[a..b] + s[b..c] + s[c..]
  {
  }

  /** Pieces and blocks partition the text, so RemoveBlocks removes the matched blocks and nothing else. */
  lemma {:induction false} BlocksAndGapsPartitionTheText(raw: string, ms: seq<Block>, cursor: nat)
    requires Ordered(ms, cursor, |raw|)
    ensures cursor <= |raw| && Weave(raw, ms, Gaps(raw, ms, cursor), cursor) == raw[cursor..]
    decreases |ms|
  {
    OrderedBounds(ms, cursor, |raw|);
    if ms != [] {
      BlocksAndGapsPartitionTheText(raw, ms[1..], ms[0].end);
      assert Gaps(raw, ms, cursor)[1..] == Gaps(raw, ms[1..], ms[0].end);
      ThreeParts(raw, cursor, ms[0].start, ms[0].end);
    }
  }

  lemma BlankStripsToNothing(s: string)
    requires Blank(s)
    ensures Strip(s) == ""
  {
  }

  /**
   Strip the executable blocks from a visible text. None means the text holds no accepted v2 call and the
   legacy expression applies instead.
   */
  method StripToolCalls(raw: string, decode: string -> Option<Json>) returns (visible: Option<string>)
    ensures visible.Some? <==> WellFormed(raw, decode, true)
    ensures visible.Some? ==> visible.value == Strip(RemoveBlocks(raw))
  {
    hide WellFormed, Strip, RemoveBlocks, AreCallsOf;
    var strict := ParseSequence(raw, decode, false);
    if strict != [] {
      OnlyBlocksStripToNothing(raw, decode);
      return Some("");
    }
    var tolerant := ParseSequence(raw, decode, true);
    if tolerant != [] {
      return Some(Strip(RemoveBlocks(raw)));
    }
    return None;
  }

  /** A text accepted without prose is accepted with it, and nothing but its blocks is visible in it. */
  lemma OnlyBlocksStripToNothing(raw: string, decode: string -> Option<Json>)
    requires WellFormed(raw, decode, false)
    ensures WellFormed(raw, decode, true) && Strip(RemoveBlocks(raw)) == ""
  {
    hide Strip, Join, HasMarker, SomeInFence, AllDecode, Blank, Blocks, Outside, Ordered;
    BlocksFitTheText(raw);
    NothingIsBlank();
    JoinOfBlanks(Outside(raw, Blocks(raw, 0)), "");
    BlankStripsToNothing(RemoveBlocks(raw));
  }

  lemma NothingIsBlank()
    ensures Blank("")
  {
  }
}
