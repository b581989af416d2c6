/**
 The reply parser of HTTP MCP sessions (aicoder/mcp_registry.py, _HttpSession._parse) for event streams.
 JSON is a decoding function on texts.
 */
module EventStream {
  import opened Wrappers

  datatype Json = Object(id: Option<int>, body: string) | Other

  datatype Reply = Parsed(message: Json) | Empty | DecodeError

  // ---- lines and payloads ----

  /** `rstrip("\r")`. */
  function Trimmed(line: string): string {
    if line != "" && line[|line| - 1] == '\r' then Trimmed(line[..|line| - 1]) else line
  }

  function SkipSpaces(s: string): string {
    if s != "" && (s[0] == ' ' || '\t' <= s[0] <= '\r' || 28 <= s[0] as int <= 31) then SkipSpaces(s[1..]) else s
  }

  /** The data a line carries; comments and other fields carry none. */
  function Data(line: string): Option<string> {
    if |line| >= 5 && line[..5] == "data:" then Some(SkipSpaces(line[5..])) else None
  }

  function Join(lines: seq<string>): string {
    if lines == [] then "" else if |lines| == 1 then lines[0] else lines[0] + "\n" + Join(lines[1..])
  }

  /** A finished group of data lines is one payload; an empty group is none. */
  function Payload(group: seq<string>): seq<string> {
    if group == [] then [] else [Join(group)]
  }

  /** The payloads of a stream, `group` being the data lines already seen of the current event. */
  function Payloads(lines: seq<string>, group: seq<string>): seq<string> {
    if lines == [] then Payload(group)
    else
      var line := Trimmed(lines[0]);
      if line == "" then Payload(group) + Payloads(lines[1..], [])
      else match Data(line)
        case Some(d) => Payloads(lines[1..], group + [d])
        case None => Payloads(lines[1..], group)
  }

  // ---- the specification of the reply ----

  predicate Decodes(decode: string -> Option<Json>, payload: string) {
    decode(payload).Some?
  }

  /** The payload is a message answering the expected id; without one any message does. */
  predicate Answers(decode: string -> Option<Json>, payload: string, expected: Option<int>) {
    decode(payload).Some? && decode(payload).value.Object? && (expected.None? || decode(payload).value.id == expected)
  }

  predicate IsMessage(decode: string -> Option<Json>, payload: string) {
    decode(payload).Some? && decode(payload).value.Object?
  }

  /** Payload `k` is decoded, and so was every earlier one, none of which answered. */
  predicate Reached(ps: seq<string>, decode: string -> Option<Json>, expected: Option<int>, k: nat) {
    k <= |ps| && forall j | 0 <= j < k :: Decodes(decode, ps[j]) && !Answers(decode, ps[j], expected)
  }

  /** The first answer; else an undecodable payload is an error; else the first message; else nothing. */
  ghost predicate IsReply(ps: seq<string>, decode: string -> Option<Json>, expected: Option<int>, r: Reply) {
    match r
    case DecodeError =>
      exists k :: 0 <= k < |ps| && Reached(ps, decode, expected, k) && !Decodes(decode, ps[k])
    case Parsed(m) =>
      || (exists k :: 0 <= k < |ps| && Reached(ps, decode, expected, k) && Answers(decode, ps[k], expected)
                      && decode(ps[k]) == Some(m))
      || (Reached(ps, decode, expected, |ps|) &&
          exists k :: 0 <= k < |ps| && IsMessage(decode, ps[k]) && decode(ps[k]) == Some(m)
                      && forall j | 0 <= j < k :: !IsMessage(decode, ps[j]))
    case Empty =>
      Reached(ps, decode, expected, |ps|) && forall j | 0 <= j < |ps| :: !IsMessage(decode, ps[j])
  }

  /** Every stream has exactly one reply. */
  lemma ReplyIsDetermined(ps: seq<string>, decode: string -> Option<Json>, expected: Option<int>, a: Reply, b: Reply)
    requires IsReply(ps, decode, expected, a) && IsReply(ps, decode, expected, b)
    ensures a == b
  {
  }

  // ---- the parser ----

  /** The first message among payloads already consumed. */
  ghost predicate IsFirst(ps: seq<string>, decode: string -> Option<Json>, first: Option<Json>) {
    match first
    case None => forall j | 0 <= j < |ps| :: !IsMessage(decode, ps[j])
    case Some(m) =>
      exists k :: 0 <= k < |ps| && IsMessage(decode, ps[k]) && decode(ps[k]) == Some(m)
                  && forall j | 0 <= j < k :: !IsMessage(decode, ps[j])
  }

  /**
   The nested `consume`: decode the collected group, remember the first message, and report an answer or an error.
   */
  method Consume(group: seq<string>, first: Option<Json>, decode: string -> Option<Json>, expected: Option<int>,
                 ghost seen: seq<string>)
    returns (reply: Option<Reply>, newFirst: Option<Json>)
    requires IsFirst(seen, decode, first) && Reached(seen, decode, expected, |seen|)
    ensures var now := seen + Payload(group);
            if reply.Some?
            then !reply.value.Empty? && group != [] && (forall rest: seq<string> :: IsReply(now + rest, decode, expected, reply.value))
            else IsFirst(now, decode, newFirst) && Reached(now, decode, expected, |now|)
  {
    ghost var now := seen + Payload(group);
    newFirst := first;
    if group == [] {
      assert now == seen;
      return None, first;
    }
    var payload := Join(group);
    assert now[|seen|] == payload;
    var value := decode(payload);
    if value.None? {
      AtEnd(seen, payload, decode, expected);
      return Some(DecodeError), first;
    }
    FirstSoFar(seen, payload, decode, first);
    if !value.value.Object? {
      return None, first;
    }
    if first.None? {
      newFirst := value;
    }
    if expected.None? || value.value.id == expected {
      AtEnd(seen, payload, decode, expected);
      return Some(Parsed(value.value)), newFirst;
    }
    return None, newFirst;
  }

  lemma FirstSoFar(seen: seq<string>, payload: string, decode: string -> Option<Json>, first: Option<Json>)
    requires IsFirst(seen, decode, first)
    ensures IsFirst(seen + [payload], decode, if first.None? && IsMessage(decode, payload) then decode(payload)
                                              else first)
  {
    var all := seen + [payload];
    assert all[|seen|] == payload;
    if first.Some? {
      var k :| 0 <= k < |seen| && IsMessage(decode, seen[k]) && decode(seen[k]) == first
               && forall j | 0 <= j < k :: !IsMessage(decode, seen[j]);
      assert all[k] == seen[k];
    }
  }

  lemma AtEnd(seen: seq<string>, payload: string, decode: string -> Option<Json>, expected: Option<int>)
    requires Reached(seen, decode, expected, |seen|)
    ensures forall rest: seq<string> :: var all := seen + [payload] + rest;
              |seen| < |all| && all[|seen|] == payload && Reached(all, decode, expected, |seen|)
  {
  }

  /** How one line moves the fold on. */
  lemma PayloadsStep(lines: seq<string>, i: nat, group: seq<string>)
    requires i < |lines|
    ensures var line, rest := Trimmed(lines[i]), lines[i + 1..];
            Payloads(lines[i..], group) ==
            if line == "" then Payload(group) + Payloads(rest, [])
            else if line[0] != ':' && Data(line).Some? then Payloads(rest, group + [Data(line).value])
            else Payloads(rest, group)
  {
  }

  lemma NoMoreLines(lines: seq<string>, group: seq<string>)
    ensures Payloads(lines[|lines|..], group) == Payload(group)
  {
  }

  lemma ReplyAtTheEnd(ps: seq<string>, decode: string -> Option<Json>, expected: Option<int>, first: Option<Json>)
    requires IsFirst(ps, decode, first) && Reached(ps, decode, expected, |ps|)
    ensures IsReply(ps, decode, expected, if first.Some? then Parsed(first.value) else Empty)
  {
  }

  /** Lines are folded into groups; the stream ends early at the first answer and finally at its last group. */
  method ParseEventStream(lines: seq<string>, decode: string -> Option<Json>,
                          expected: Option<int>) returns (reply: Reply)
    ensures IsReply(Payloads(lines, []), decode, expected, reply)
  {
    hide IsFirst, Reached, IsReply, Trimmed, Data, Payload, Payloads;
    var group: seq<string> := [];
    var first: Option<Json> := None;
    ghost var seen: seq<string> := [];
    NothingSeen(decode, expected);
    assert lines[0..] == lines;
    var i := 0;
    while i < |lines|
      invariant 0 <= i <= |lines|
      invariant Payloads(lines, []) == seen + Payloads(lines[i..], group)
      invariant IsFirst(seen, decode, first) && Reached(seen, decode, expected, |seen|)
    {
      var line := Trimmed(lines[i]);
      PayloadsStep(lines, i, group);
      i := i + 1;
      if line == "" {
        var answer, newFirst := Consume(group, first, decode, expected, seen);
        ghost var now := seen + Payload(group);
        assert Payloads(lines, []) == now + Payloads(lines[i..], []);
        if answer.Some? { return answer.value; }
        seen, first, group := now, newFirst, [];
      } else if line[0] != ':' {
        var data := Data(line);
        if data.Some? { group := group + [data.value]; }
      }
    }
    NoMoreLines(lines, group);
    var answer, newFirst := Consume(group, first, decode, expected, seen);
    ghost var now := seen + Payload(group);
    assert now + [] == now;
    if answer.Some? { return answer.value; }
    ReplyAtTheEnd(now, decode, expected, newFirst);
    return if newFirst.Some? then Parsed(newFirst.value) else Empty;
  }

  lemma NothingSeen(decode: string -> Option<Json>, expected: Option<int>)
    ensures IsFirst([], decode, None) && Reached([], decode, expected, 0)
  {
  }

  /** The first payload that answers the expected id. */
  predicate FirstAnswer(ps: seq<string>, decode: string -> Option<Json>, expected: Option<int>, k: int) {
    0 <= k < |ps| && Answers(decode, ps[k], expected) && forall j | 0 <= j < k :: !Answers(decode, ps[j], expected)
  }

  /** The first payload that is a message at all. */
  predicate FirstMessage(ps: seq<string>, decode: string -> Option<Json>, k: int) {
    0 <= k < |ps| && IsMessage(decode, ps[k]) && forall j | 0 <= j < k :: !IsMessage(decode, ps[j])
  }

  /** Where a payload answers, there is a first one that does; without an expected id these are the messages. */
  lemma {:induction false} FirstAnswerExists(ps: seq<string>, decode: string -> Option<Json>, expected: Option<int>,
                                             j: nat)
    requires j < |ps| && Answers(decode, ps[j], expected)
    ensures exists k :: k <= j && FirstAnswer(ps, decode, expected, k)
    ensures expected.None? ==> exists k :: k <= j && FirstMessage(ps, decode, k)
  {
    if i :| 0 <= i < j && Answers(decode, ps[i], expected) {
      FirstAnswerExists(ps, decode, expected, i);
    } else {
      assert FirstAnswer(ps, decode, expected, j);
      if expected.None? { assert FirstMessage(ps, decode, j); }
    }
  }

  /**
   The promise for streams whose payloads all decode: the first message with the expected id, else the first message,
   else nothing; never an error.
   */
  lemma DecodableStreamsNeverFail(ps: seq<string>, decode: string -> Option<Json>, expected: Option<int>, r: Reply)
    requires IsReply(ps, decode, expected, r) && forall j | 0 <= j < |ps| :: Decodes(decode, ps[j])
    ensures r != DecodeError
    ensures forall k | FirstAnswer(ps, decode, expected, k) :: r.Parsed? && decode(ps[k]) == Some(r.message)
    ensures (forall j | 0 <= j < |ps| :: !Answers(decode, ps[j], expected)) ==>
              forall k | FirstMessage(ps, decode, k) :: r.Parsed? && decode(ps[k]) == Some(r.message)
    ensures r == Empty <==> forall j | 0 <= j < |ps| :: !IsMessage(decode, ps[j])
  {
  }

  /** An undecodable payload is harmless exactly when an answer comes before it. */
  lemma ErrorsMatterOnlyBeforeTheAnswer(ps: seq<string>, decode: string -> Option<Json>, expected: Option<int>,
                                        r: Reply)
    requires IsReply(ps, decode, expected, r)
    ensures r == DecodeError <==>
            exists k :: 0 <= k < |ps| && !Decodes(decode, ps[k]) && forall j | 0 <= j < k :: !Answers(decode, ps[j], expected)
  {
    if k :| 0 <= k < |ps| && !Decodes(decode, ps[k]) && forall j | 0 <= j < k :: !Answers(decode, ps[j], expected) {
      FirstUndecodable(ps, decode, k);
    }
  }

  lemma {:induction false} FirstUndecodable(ps: seq<string>, decode: string -> Option<Json>, k: nat)
    requires k < |ps| && !Decodes(decode, ps[k])
    ensures exists m :: 0 <= m <= k && !Decodes(decode, ps[m]) && forall j | 0 <= j < m :: Decodes(decode, ps[j])
  {
    if j :| 0 <= j < k && !Decodes(decode, ps[j]) {
      FirstUndecodable(ps, decode, j);
    }
  }

  // ---- writing a stream and reading it ----

  /** A line of a stream: data after some white space, a comment, or another field. */
  datatype Line = DataLine(pad: string, text: string) | Comment(text: string) | OtherField(text: string)

  predicate IsBlankChar(c: char) {
    c as int in {9, 10, 11, 12, 13, 28, 29, 30, 31, 32}
  }

  /** Lines a server may send: the data neither starts with white space nor ends with a carriage return. */
  predicate Proper(l: Line) {
    match l
    case DataLine(pad, text) =>
      && (forall k | 0 <= k < |pad| :: IsBlankChar(pad[k]))
      && (text != "" ==> !IsBlankChar(text[0]) && text[|text| - 1] != '\r')
    case Comment(_) => true
    case OtherField(text) => text != "" && text[0] != ':' && text[0] != '\r' && !("data:" <= text)
  }

  /** The line as it is sent, with any number of carriage returns after it. */
  function Sent(l: Line, n: nat): string {
    match l
    case DataLine(pad, text) => "data:" + pad + text + Returns(n)
    case Comment(text) => ":" + text + Returns(n)
    case OtherField(text) => text + Returns(n)
  }

  function Returns(n: nat): (r: string)
    ensures |r| == n && forall k | 0 <= k < n :: r[k] == '\r'
  {
    seq(n, _ => '\r')
  }

  /** An event: its lines, each with the number of carriage returns after it, and those of the empty line at its end. */
  datatype Event = Event(lines: seq<(Line, nat)>, last: nat)

  function SentLines(lines: seq<(Line, nat)>): seq<string> {
    if lines == [] then [] else [Sent(lines[0].0, lines[0].1)] + SentLines(lines[1..])
  }

  function SentEvents(events: seq<Event>): seq<string> {
    if events == [] then []
    else SentLines(events[0].lines) + ([Returns(events[0].last)] + SentEvents(events[1..]))
  }

  /** The data of an event, line by line. */
  function Texts(lines: seq<(Line, nat)>): seq<string> {
    if lines == [] then []
    else (if lines[0].0.DataLine? then [lines[0].0.text] else []) + Texts(lines[1..])
  }

  /** Lines of text with a newline between them. */
  function Lines(texts: seq<string>): string {
    if texts == [] then ""
    else if |texts| == 1 then texts[0]
    else Lines(texts[..|texts| - 1]) + "\n" + texts[|texts| - 1]
  }

  function PayloadsOf(events: seq<Event>): seq<string> {
    if events == [] then []
    else (if Texts(events[0].lines) == [] then [] else [Lines(Texts(events[0].lines))]) + PayloadsOf(events[1..])
  }

  lemma {:induction false} TrimmedOf(s: string, n: nat)
    requires s != "" ==> s[|s| - 1] != '\r'
    ensures Trimmed(s + Returns(n)) == s
  {
    if n == 0 {
      assert s + Returns(0) == s;
    } else {
      assert (s + Returns(n))[..|s| + n - 1] == s + Returns(n - 1);
      TrimmedOf(s, n - 1);
    }
  }

  /** Trimming removes carriage returns at the end and nothing else. */
  lemma {:induction false} TrimmedIsPrefix(s: string)
    ensures Trimmed(s) <= s && (Trimmed(s) != "" ==> Trimmed(s)[|Trimmed(s)| - 1] != '\r')
    ensures forall k | |Trimmed(s)| <= k < |s| :: s[k] == '\r'
  {
    if s != "" && s[|s| - 1] == '\r' { TrimmedIsPrefix(s[..|s| - 1]); }
  }

  lemma {:induction false} SkippedPad(pad: string, rest: string)
    requires (forall k | 0 <= k < |pad| :: IsBlankChar(pad[k])) && (rest != "" ==> !IsBlankChar(rest[0]))
    ensures SkipSpaces(pad + rest) == rest
  {
    if pad == "" {
      assert pad + rest == rest;
    } else {
      assert (pad + rest)[1..] == pad[1..] + rest;
      SkippedPad(pad[1..], rest);
    }
  }

  /** A data line is read back as its text; comments and other fields are passed over. */
  lemma LineIsRead(l: Line, n: nat)
    requires Proper(l)
    ensures var t := Trimmed(Sent(l, n));
            t != "" && Data(t) == if l.DataLine? then Some(l.text) else None
  {
    var s := Sent(l, n);
    TrimmedIsPrefix(s);
    var t := Trimmed(s);
    match l
    case DataLine(pad, text) =>
      assert "data:"[..5] == "data:" && s[4] == ':' && s[..5] == "data:";
      if text != "" {
        assert s == ("data:" + pad + text) + Returns(n);
        TrimmedOf("data:" + pad + text, n);
        assert t[5..] == pad + text;
        SkippedPad(pad, text);
      } else {
        assert |t| >= 5;
        var rest := t[5..];
        assert forall k | 0 <= k < |rest| :: rest[k] == s[k + 5];
        SkippedPad(rest, "");
        assert rest + "" == rest;
      }
    case Comment(text) =>
      assert s[0] == ':';
    case OtherField(text) =>
      assert s[0] == text[0];
  }

  lemma {:induction false} JoinIsLines(texts: seq<string>)
    ensures Join(texts) == Lines(texts)
  {
    if |texts| > 1 {
      JoinIsLines(texts[1..]);
      JoinIsLines(texts[..|texts| - 1]);
      JoinAppend(texts[..|texts| - 1], texts[|texts| - 1]);
      assert texts[..|texts| - 1] + [texts[|texts| - 1]] == texts;
    }
  }

  lemma {:induction false} JoinAppend(texts: seq<string>, last: string)
    requires texts != []
    ensures Join(texts + [last]) == Join(texts) + "\n" + last
  {
    if |texts| > 1 {
      assert (texts + [last])[1..] == texts[1..] + [last];
      JoinAppend(texts[1..], last);
    } else {
      assert (texts + [last])[1..] == [last];
    }
  }

  lemma {:induction false} LinesAreCollected(lines: seq<(Line, nat)>, more: seq<string>, group: seq<string>)
    requires forall k | 0 <= k < |lines| :: Proper(lines[k].0)
    ensures Payloads(SentLines(lines) + more, group) == Payloads(more, group + Texts(lines))
  {
    hide Trimmed, Data, Proper, Sent;
    if lines == [] {
      assert SentLines(lines) + more == more && group + Texts(lines) == group;
    } else {
      var all := SentLines(lines) + more;
      LineIsRead(lines[0].0, lines[0].1);
      assert all[1..] == SentLines(lines[1..]) + more;
      var data := if lines[0].0.DataLine? then [lines[0].0.text] else [];
      LinesAreCollected(lines[1..], more, group + data);
      assert group + data + Texts(lines[1..]) == group + Texts(lines);
      assert group + [] == group;
    }
  }

  lemma EmptyLineEnds(n: nat, more: seq<string>, group: seq<string>)
    ensures Payloads([Returns(n)] + more, group) == Payload(group) + Payloads(more, [])
  {
    TrimmedOf("", n);
    assert "" + Returns(n) == Returns(n);
    assert ([Returns(n)] + more)[1..] == more;
  }

  /**
   The stream round trip: events written as data lines, with any white space before the data, any carriage returns after
   a line, and comments and other fields in between, are read back as the data of each event that has some, its lines
   joined by newlines.
   */
  lemma {:induction false} WrittenEventsAreRead(events: seq<Event>)
    requires forall e, k | 0 <= e < |events| && 0 <= k < |events[e].lines| :: Proper(events[e].lines[k].0)
    ensures Payloads(SentEvents(events), []) == PayloadsOf(events)
  {
    hide Trimmed, Data, Proper, Sent, Payload;
    if events == [] {
      NoMoreLines([], []);
      EmptyGroup();
    } else {
      var e, more := events[0], SentEvents(events[1..]);
      assert forall k | 0 <= k < |e.lines| :: Proper(events[0].lines[k].0);
      LinesAreCollected(e.lines, [Returns(e.last)] + more, []);
      assert [] + Texts(e.lines) == Texts(e.lines);
      EmptyLineEnds(e.last, more, Texts(e.lines));
      WrittenEventsAreRead(events[1..]);
      PayloadIsLines(Texts(e.lines));
    }
  }

  lemma EmptyGroup()
    ensures Payload([]) == []
  {
  }

  lemma PayloadIsLines(texts: seq<string>)
    ensures Payload(texts) == if texts == [] then [] else [Lines(texts)]
  {
    JoinIsLines(texts);
  }

  /** One event with DOS line ends. */
  lemma ExampleStream()
    ensures Payloads(["data: x\r", "\r"], []) == ["x"]
  {
    hide Payloads;
    var line := DataLine(" ", "x");
    var event := Event([(line, 1)], 1);
    ExampleLine();
    assert SentLines(event.lines[1..]) == [] && Texts(event.lines[1..]) == [];
    assert SentEvents([event][1..]) == [] && PayloadsOf([event][1..]) == [];
    assert SentLines(event.lines) == ["data: x\r"];
    assert SentEvents([event]) == ["data: x\r", "\r"];
    assert PayloadsOf([event]) == ["x"];
    WrittenEventsAreRead([event]);
  }

  lemma ExampleLine()
    ensures Proper(DataLine(" ", "x")) && Sent(DataLine(" ", "x"), 1) == "data: x\r" && Returns(1) == "\r"
  {
    assert Returns(1) == "\r";
    assert "data:" + " " + "x" + "\r" == "data: x\r";
  }
}
