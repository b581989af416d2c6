/**
 Context trimming (aicoder/executor.py, trim_messages): keep the system message and a suffix of the
 conversation that fits a message count and a soft character budget, without separating a tool result
 from the assistant call that owns it.
 */
module TrimMessages {
  import opened Wrappers

  datatype Role = System | User | Assistant | Tool | OtherRole

  /** `toolCalls` holds the JSON text of each native tool call of an assistant message. */
  datatype Message = Message(role: Role, content: string, toolCalls: seq<string>)

  datatype TrimError = IndexOutOfRange

  /** Length of the JSON list rendered with ", " between its items. */
  function ListChars(items: seq<string>): nat {
    if items == [] then 0 else |items[0]| + 2 + ListChars(items[1..])
  }

  function ContextChars(m: Message): (n: nat)
    ensures n >= 32
  {
    |m.content| + ListChars(m.toolCalls) + 32
  }

  /** Characters used by a run of messages. */
  function Chars(msgs: seq<Message>): nat {
    if msgs == [] then 0 else ContextChars(msgs[0]) + Chars(msgs[1..])
  }

  predicate OwnsToolCalls(m: Message) {
    m.role == Assistant && m.toolCalls != []
  }

  /** The budget the loop compares with: a missing or non-positive limit means no budget. */
  function Budget(maxChars: Option<int>): Option<nat> {
    if maxChars.Some? && maxChars.value > 0
    then Some(if maxChars.value < 4096 then 4096 else maxChars.value)
    else None
  }

  /** Messages `from..` fit beside the system message. */
  predicate Fits(msgs: seq<Message>, from: nat, budget: Option<nat>)
    requires 0 < from <= |msgs|
  {
    budget.Some? ==> ContextChars(msgs[0]) + Chars(msgs[from..]) <= budget.value
  }

  /**
   `from` starts a suffix within the count window that fits the budget, the newest message always counting as fitting.
   */
  predicate Admissible(msgs: seq<Message>, from: nat, window: nat, budget: Option<nat>) {
    && 0 < from < |msgs|
    && |msgs| - from <= window
    && (from == |msgs| - 1 || Fits(msgs, from, budget))
  }

  /** `from` starts the longest admissible suffix. */
  ghost predicate LongestSuffix(msgs: seq<Message>, from: nat, window: nat, budget: Option<nat>) {
    && Admissible(msgs, from, window, budget)
    && forall k: nat | Admissible(msgs, k, window, budget) :: from <= k
  }

  /** The last message before `k`, not below 1, that is no tool result; 0 when there is none. */
  function OwnerOf(msgs: seq<Message>, k: nat): (p: nat)
    requires k <= |msgs|
    ensures p == 0 || (p < k && msgs[p].role != Tool)
    ensures forall j | p < j < k :: msgs[j].role == Tool
  {
    if k <= 1 then 0
    else if msgs[k - 1].role != Tool then k - 1
    else OwnerOf(msgs, k - 1)
  }

  /** The first message at or after `k` that is no tool result, or the end. */
  function SkipTools(msgs: seq<Message>, k: nat): (q: nat)
    requires k <= |msgs|
    ensures k <= q <= |msgs|
    ensures q < |msgs| ==> msgs[q].role != Tool
    ensures forall j | k <= j < q :: msgs[j].role == Tool
    decreases |msgs| - k
  {
    if k < |msgs| && msgs[k].role == Tool then SkipTools(msgs, k + 1) else k
  }

  /** Where the kept suffix starts once the longest admissible suffix starts at `base`. */
  function Adjusted(msgs: seq<Message>, base: nat): (s: nat)
    requires 0 < base < |msgs|
  {
    if msgs[base].role != Tool then base
    else
      var owner := OwnerOf(msgs, base);
      if owner >= 1 && OwnsToolCalls(msgs[owner]) then owner else SkipTools(msgs, base)
  }

  /** `r` is what trimming `msgs` must return. */
  ghost predicate IsTrimmed(msgs: seq<Message>, window: nat, maxChars: Option<int>, r: seq<Message>) {
    |msgs| > 1 &&
    exists base: nat ::
      && LongestSuffix(msgs, base, window, Budget(maxChars))
      && r == [msgs[0]] + msgs[Adjusted(msgs, base)..]
  }

  lemma {:induction false} CharsDrop(msgs: seq<Message>, k: nat)
    requires k < |msgs|
    ensures Chars(msgs[k..]) == ContextChars(msgs[k]) + Chars(msgs[k + 1..])
  {
  }

  lemma {:induction false} CharsMonotone(msgs: seq<Message>, a: nat, b: nat)
    requires a <= b <= |msgs|
    ensures Chars(msgs[b..]) <= Chars(msgs[a..])
    decreases b - a
  {
    if a < b {
      CharsDrop(msgs, a);
      CharsMonotone(msgs, a + 1, b);
    }
  }

  /** The backward scan: the longest run of newest messages that fits the budget, or the newest one alone. */
  method BudgetStart(msgs: seq<Message>, budget: Option<nat>) returns (charStart: nat)
    requires |msgs| > 1 && budget.Some?
    ensures 0 < charStart < |msgs|
    ensures charStart == |msgs| - 1 || Fits(msgs, charStart, budget)
    ensures forall k: nat | 0 < k < charStart :: !Fits(msgs, k, budget)
  {
    var used := ContextChars(msgs[0]);
    charStart := |msgs|;
    var index := |msgs| - 1;
    while index > 0
      invariant 0 <= index < |msgs|
      invariant charStart == index + 1
      invariant used == ContextChars(msgs[0]) + Chars(msgs[charStart..])
      invariant charStart < |msgs| - 1 ==> used <= budget.value
    {
      CharsDrop(msgs, index);
      var size := ContextChars(msgs[index]);
      if charStart < |msgs| && used + size > budget.value {
        forall k: nat | 0 < k < charStart
          ensures !Fits(msgs, k, budget)
        {
          CharsMonotone(msgs, k, index);
        }
        return;
      }
      used := used + size;
      charStart := index;
      index := index - 1;
    }
  }

  /** Move a start that falls on a tool result back to its owner, or forward past orphaned results. */
  method OwnedStart(msgs: seq<Message>, base: nat) returns (start: nat)
    requires 0 < base < |msgs|
    ensures start == Adjusted(msgs, base)
  {
    start := base;
    if msgs[start].role == Tool {
      var parent := start - 1;
      while parent >= 1 && msgs[parent].role == Tool
        invariant 0 <= parent < base
        invariant OwnerOf(msgs, base) == OwnerOf(msgs, parent + 1)
      {
        parent := parent - 1;
      }
      if parent >= 1 && OwnsToolCalls(msgs[parent]) {
        start := parent;
      } else {
        while start < |msgs| && msgs[start].role == Tool
          invariant base <= start <= |msgs|
          invariant SkipTools(msgs, base) == SkipTools(msgs, start)
        {
          start := start + 1;
        }
      }
    }
  }

  /**
   Trimming a list holding nothing but the system message indexes past its end; every other non-empty list
   is trimmed as IsTrimmed says.
   */
  method Trim(msgs: seq<Message>, window: nat, maxChars: Option<int>) returns (r: Result<seq<Message>, TrimError>)
    requires window > 0
    ensures msgs == [] ==> r == Success([])
    ensures r.Failure? <==> |msgs| == 1
    ensures |msgs| > 1 ==> IsTrimmed(msgs, window, maxChars, r.value)
  {
    if msgs == [] { return Success(msgs); }
    if |msgs| == 1 { return Failure(IndexOutOfRange); }
    var start := if |msgs| - window > 1 then |msgs| - window else 1;
    var budget := Budget(maxChars);
    if budget.Some? {
      var charStart := BudgetStart(msgs, budget);
      CharsMonotone(msgs, charStart, if start < charStart then charStart else start);
      start := if start < charStart then charStart else start;
    }
    assert LongestSuffix(msgs, start, window, budget);
    var owned := OwnedStart(msgs, start);
    r := Success([msgs[0]] + msgs[owned..]);
  }

  /**
   The suffix is contiguous, never opens with a tool result, and reaches back before the longest admissible
   suffix only over tool results, down to the assistant message whose calls they answer.
   */
  lemma {:induction false} SuffixNeverOrphansToolResults(msgs: seq<Message>, window: nat, maxChars: Option<int>,
                                                         r: seq<Message>)
    requires IsTrimmed(msgs, window, maxChars, r)
    ensures r[0] == msgs[0]
    ensures |r| <= |msgs| && r[1..] == msgs[|msgs| - |r| + 1..]
    ensures |r| > 1 ==> r[1].role != Tool
    ensures exists base: nat :: LongestSuffix(msgs, base, window, Budget(maxChars)) &&
              var s := |msgs| - |r| + 1;
              s < base ==> msgs[s].role == Assistant && msgs[s].toolCalls != []
                           && forall j | s < j <= base :: msgs[j].role == Tool
  {
    var base: nat :| LongestSuffix(msgs, base, window, Budget(maxChars)) && r == [msgs[0]] + msgs[Adjusted(msgs, base)..];
    assert r[1..] == msgs[Adjusted(msgs, base)..];
  }

  /** The assistant message whose calls the first kept tool results answer is kept with them. */
  lemma {:induction false} OwnersAreKept(msgs: seq<Message>, window: nat, maxChars: Option<int>, r: seq<Message>,
                                         owner: nat, base: nat)
    requires IsTrimmed(msgs, window, maxChars, r) && LongestSuffix(msgs, base, window, Budget(maxChars))
    requires 0 < owner < base && msgs[owner].role == Assistant && msgs[owner].toolCalls != []
    requires forall j | owner < j <= base :: msgs[j].role == Tool
    ensures r == [msgs[0]] + msgs[owner..]
  {
    var b: nat :| LongestSuffix(msgs, b, window, Budget(maxChars)) && r == [msgs[0]] + msgs[Adjusted(msgs, b)..];
    assert b == base;
    assert OwnerOf(msgs, base) == owner;
  }

  /** Without tool results the kept suffix is the longest one within both limits, the newest message always kept. */
  lemma {:induction false} ToolFreeLogsKeepTheLongestSuffix(msgs: seq<Message>, window: nat, maxChars: Option<int>,
                                                            r: seq<Message>)
    requires IsTrimmed(msgs, window, maxChars, r)
    requires forall m | m in msgs :: m.role != Tool
    ensures LongestSuffix(msgs, |msgs| - |r| + 1, window, Budget(maxChars))
    ensures |r| >= 2 && r[|r| - 1] == msgs[|msgs| - 1]
  {
    var base: nat :| LongestSuffix(msgs, base, window, Budget(maxChars)) && r == [msgs[0]] + msgs[Adjusted(msgs, base)..];
    assert msgs[base] in msgs;
  }

  /** Admissibility of a suffix depends on the suffix and the system message only. */
  lemma {:induction false} AdmissibleInSuffix(msgs: seq<Message>, s: nat, k: nat, window: nat, budget: Option<nat>)
    requires 0 < s < |msgs| && 0 < k
    ensures var r := [msgs[0]] + msgs[s..];
            Admissible(r, k, window, budget) <==> Admissible(msgs, k + s - 1, window, budget)
  {
    var r := [msgs[0]] + msgs[s..];
    if k < |r| {
      assert r[k..] == msgs[k + s - 1..];
    }
  }

  /** Trimming a trimmed conversation changes nothing, as long as a message beside the system message was kept. */
  lemma {:induction false} TrimIsIdempotent(msgs: seq<Message>, window: nat, maxChars: Option<int>, r: seq<Message>,
                                            again: seq<Message>)
    requires IsTrimmed(msgs, window, maxChars, r) && |r| >= 2
    requires IsTrimmed(r, window, maxChars, again)
    ensures again == r
  {
    var budget := Budget(maxChars);
    var base: nat :| LongestSuffix(msgs, base, window, budget) && r == [msgs[0]] + msgs[Adjusted(msgs, base)..];
    var inner: nat :| LongestSuffix(r, inner, window, budget) && again == [r[0]] + r[Adjusted(r, inner)..];
    RetrimStartsAtOne(msgs, base, r, inner, window, budget);
    assert [r[0]] + r[1..] == r;
  }

  lemma {:induction false} RetrimStartsAtOne(msgs: seq<Message>, base: nat, r: seq<Message>, inner: nat, window: nat,
                                             budget: Option<nat>)
    requires LongestSuffix(msgs, base, window, budget) && r == [msgs[0]] + msgs[Adjusted(msgs, base)..] && |r| >= 2
    requires LongestSuffix(r, inner, window, budget)
    ensures Adjusted(r, inner) == 1
  {
    var s := Adjusted(msgs, base);
    AdmissibleInSuffix(msgs, s, inner, window, budget);
    if s <= base {
      AdmissibleInSuffix(msgs, s, base - s + 1, window, budget);
      assert inner == base - s + 1;
      if s < base { OwnerInSuffix(msgs, s, base, r, inner); }
    } else {
      AdmissibleLater(msgs, base, s, window, budget);
      AdmissibleInSuffix(msgs, s, 1, window, budget);
    }
  }

  /** Every later start of an admissible suffix is admissible. */
  lemma {:induction false} AdmissibleLater(msgs: seq<Message>, a: nat, b: nat, window: nat, budget: Option<nat>)
    requires Admissible(msgs, a, window, budget) && a <= b < |msgs|
    ensures Admissible(msgs, b, window, budget)
  {
    CharsMonotone(msgs, a, b);
  }

  lemma {:induction false} OwnerInSuffix(msgs: seq<Message>, s: nat, base: nat, r: seq<Message>, inner: nat)
    requires 0 < s < base < |msgs| && r == [msgs[0]] + msgs[s..] && inner == base - s + 1
    requires msgs[s].role != Tool && forall j | s < j < base :: msgs[j].role == Tool
    ensures OwnerOf(r, inner) == 1
  {
    var p := OwnerOf(r, inner);
    assert forall j | 1 < j < inner :: r[j] == msgs[j + s - 1];
    assert r[1] == msgs[s];
  }

  /** IsTrimmed fixes the result, so the loops above compute the only acceptable answer. */
  lemma {:induction false} TrimIsDetermined(msgs: seq<Message>, window: nat, maxChars: Option<int>, r: seq<Message>,
                                            q: seq<Message>)
    requires IsTrimmed(msgs, window, maxChars, r) && IsTrimmed(msgs, window, maxChars, q)
    ensures r == q
  {
    var a: nat :| LongestSuffix(msgs, a, window, Budget(maxChars)) && r == [msgs[0]] + msgs[Adjusted(msgs, a)..];
    var b: nat :| LongestSuffix(msgs, b, window, Budget(maxChars)) && q == [msgs[0]] + msgs[Adjusted(msgs, b)..];
    assert a == b;
  }

  // ---- the budget in characters of the texts themselves ----

  function Commas(items: seq<string>): string {
    if items == [] then "" else if |items| == 1 then items[0] else items[0] + ", " + Commas(items[1..])
  }

  /** The JSON list of the tool calls of a message, as it is counted; nothing when there are none. */
  function JsonList(items: seq<string>): string {
    if items == [] then "" else "[" + Commas(items) + "]"
  }

  /** The characters of the texts of messages, with 32 more for each message. */
  function TextChars(msgs: seq<Message>): nat {
    if msgs == [] then 0
    else
      var last := msgs[|msgs| - 1];
      TextChars(msgs[..|msgs| - 1]) + |last.content| + |JsonList(last.toolCalls)| + 32
  }

  lemma {:induction false} ListCharsAreCounted(items: seq<string>)
    ensures ListChars(items) == |JsonList(items)|
  {
    if |items| > 1 { ListCharsAreCounted(items[1..]); }
  }

  lemma {:induction false} CharsOfConcat(a: seq<Message>, m: Message)
    ensures Chars(a + [m]) == Chars(a) + ContextChars(m)
  {
    if a == [] {
      assert a + [m] == [m];
    } else {
      assert (a + [m])[1..] == a[1..] + [m];
      CharsOfConcat(a[1..], m);
    }
  }

  /** What the loops add up is the length of the texts. */
  lemma {:induction false} CharsAreCounted(msgs: seq<Message>)
    ensures Chars(msgs) == TextChars(msgs)
  {
    hide JsonList, ListChars;
    if msgs != [] {
      var front, last := msgs[..|msgs| - 1], msgs[|msgs| - 1];
      CharsAreCounted(front);
      ListCharsAreCounted(last.toolCalls);
      CharsOfConcat(front, last);
      assert front + [last] == msgs;
    }
  }

  lemma FitsMeans(msgs: seq<Message>, from: nat, limit: int)
    requires 0 < from <= |msgs| && limit > 0
    ensures Fits(msgs, from, Budget(Some(limit))) <==>
            TextChars([msgs[0]] + msgs[from..]) <= if limit < 4096 then 4096 else limit
  {
    var kept := [msgs[0]] + msgs[from..];
    assert kept[1..] == msgs[from..];
    CharsAreCounted(kept);
  }

  /**
   On a log without tool results and with a positive limit, whatever is kept beyond the system message and the newest
   one fits the limit (at least 4096), counting every character of the texts and 32 more for each message; and the next
   older message within the window would not have fitted as well.
   */
  lemma {:induction false} KeptTextFitsTheLimit(msgs: seq<Message>, window: nat, limit: int, r: seq<Message>)
    requires IsTrimmed(msgs, window, Some(limit), r) && limit > 0
    requires forall m | m in msgs :: m.role != Tool
    ensures 2 <= |r| <= window + 1
    ensures |r| > 2 ==> TextChars(r) <= if limit < 4096 then 4096 else limit
    ensures |r| < |msgs| && |r| <= window ==>
              TextChars([msgs[0]] + msgs[|msgs| - |r|..]) > if limit < 4096 then 4096 else limit
  {
    hide Fits, Budget, TextChars;
    ToolFreeLogsKeepTheLongestSuffix(msgs, window, Some(limit), r);
    SuffixNeverOrphansToolResults(msgs, window, Some(limit), r);
    var from := |msgs| - |r| + 1;
    assert r == [msgs[0]] + msgs[from..];
    FitsMeans(msgs, from, limit);
    if from > 1 {
      FitsMeans(msgs, from - 1, limit);
      assert !Admissible(msgs, from - 1, window, Budget(Some(limit))) || from <= from - 1;
    }
  }

  /** Without a limit the window alone decides. */
  lemma {:induction false} NoLimitKeepsTheWindow(msgs: seq<Message>, window: nat, maxChars: Option<int>, r: seq<Message>)
    requires IsTrimmed(msgs, window, maxChars, r) && (maxChars.None? || maxChars.value <= 0) && window > 0
    requires forall m | m in msgs :: m.role != Tool
    ensures |r| == if |msgs| <= window then |msgs| else window + 1
  {
    ToolFreeLogsKeepTheLongestSuffix(msgs, window, maxChars, r);
    var wanted := if |msgs| <= window then 1 else |msgs| - window;
    assert Admissible(msgs, wanted, window, Budget(maxChars));
  }

  lemma {:induction false} AtLeastOneText(msgs: seq<Message>, k: nat)
    requires k < |msgs|
    ensures TextChars(msgs) >= |msgs[k].content| + 32
  {
    hide JsonList;
    if k < |msgs| - 1 { AtLeastOneText(msgs[..|msgs| - 1], k); }
  }

  /** A message that is too long for the limit is dropped, and only the newest one is kept with the system message. */
  method OversizedMessageIsDropped(long: string) returns (r: Result<seq<Message>, TrimError>)
    requires |long| >= 4096
    ensures r == Success([Message(System, "s", []), Message(Assistant, "0123456789", [])])
  {
    hide IsTrimmed, TextChars;
    var msgs := [Message(System, "s", []), Message(User, long, []), Message(Assistant, "0123456789", [])];
    r := Trim(msgs, 80, Some(4096));
    KeptTextFitsTheLimit(msgs, 80, 4096, r.value);
    SuffixNeverOrphansToolResults(msgs, 80, Some(4096), r.value);
    AtLeastOneText(msgs, 1);
    assert r.value == [msgs[0]] + msgs[|msgs| - |r.value| + 1..];
    assert [msgs[0]] + msgs[1..] == msgs && [msgs[0]] + msgs[2..] == [msgs[0], msgs[2]];
  }
}
