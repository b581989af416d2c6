/**
 The loop guard of the run loop (aicoder/executor.py, AgentLoopGuard) and what it promises about repeated batches.
 */
module LoopGuard {
  import opened Tools

  datatype Fingerprint = Fingerprint(calls: seq<Operation>, results: seq<string>)

  const STALL_FALLBACK_REPEATS: nat := 6

  function Count<T(==)>(s: seq<T>, x: T): nat {
    if s == [] then 0 else (if s[0] == x then 1 else 0) + Count(s[1..], x)
  }

  /** The last `n` elements. */
  function Last<T>(s: seq<T>, n: nat): seq<T> {
    if |s| <= n then s else s[|s| - n..]
  }

  /** Appending pushes the oldest out; what was last before and what comes now is last afterwards. */
  lemma LastAppended<T>(s: seq<T>, n: nat, x: T)
    requires n > 0
    ensures |Last(s, n)| == (if |s| < n then |s| else n) && Last(s, n) <= s[|s| - |Last(s, n)|..]
    ensures Last(s + [x], n) == Last(s, n - 1) + [x]
  {
    var all := s + [x];
    if |all| > n { assert all[|all| - n..] == s[|s| - (n - 1)..] + [x]; }
  }

  /** How much of a result's end the guard compares. */
  const RESULT_TAIL: nat := 1200

  /** What the guard remembers of an executed batch: its calls and the ends of its results. */
  function FingerprintOf(calls: seq<Operation>, results: seq<string>): (f: Fingerprint)
    ensures |f.results| == |results| && forall k | 0 <= k < |results| :: f.results[k] == Last(results[k], 1200)
  {
    Fingerprint(calls, seq(|results|, k requires 0 <= k < |results| => Last(results[k], RESULT_TAIL)))
  }

  /** The no-progress signatures of a batch's results, as a bag. */
  function Signatures(signature: string -> seq<string>, results: seq<string>): multiset<string> {
    if results == [] then multiset{}
    else multiset(signature(results[0])) + Signatures(signature, results[1..])
  }

  lemma {:induction false} CountIsMultiplicity<T>(s: seq<T>, x: T)
    ensures Count(s, x) == multiset(s)[x]
  {
    if s != [] {
      CountIsMultiplicity(s[1..], x);
      assert s == [s[0]] + s[1..];
    }
  }

  /** The bag of a batch is the sum of the bags of its results. */
  lemma {:induction false} SignaturesOfBatch(signature: string -> seq<string>, results: seq<string>, last: string)
    ensures Signatures(signature, []) == multiset{}
    ensures Signatures(signature, results + [last]) == Signatures(signature, results) + multiset(signature(last))
  {
    if results == [] {
      assert [] + [last] == [last];
    } else {
      assert (results + [last])[1..] == results[1..] + [last];
      SignaturesOfBatch(signature, results[1..], last);
    }
  }

  /** How often a bag was seen since the last progress, including now. */
  function StallRepeats(recent: seq<multiset<string>>, bag: multiset<string>, mutationEffect: bool): nat {
    if mutationEffect || bag == multiset{} then 0 else Count(recent, bag) + 1
  }

  /** Progress, or a batch without no-progress signatures, forgets the bags. */
  function NextBags(recent: seq<multiset<string>>, bag: multiset<string>, mutationEffect: bool,
                    window: nat): seq<multiset<string>> {
    if mutationEffect || bag == multiset{} then [] else Last(recent + [bag], window)
  }

  class AgentLoopGuard {
    const window: nat
    var recent: seq<Fingerprint>
    var lastCallBatch: seq<Operation>
    var consecutive: nat
    var semanticRecent: seq<multiset<string>>

    ghost predicate Valid()
      reads this
    {
      && window >= STALL_FALLBACK_REPEATS
      && |recent| <= window && |semanticRecent| <= window
      && (lastCallBatch != [] ==> consecutive >= 1)
    }

    constructor (window: nat)
      ensures Valid() && lastCallBatch == [] && consecutive == 0 && recent == [] && semanticRecent == []
      ensures window >= STALL_FALLBACK_REPEATS ==> this.window == window
    {
      this.window := if window < STALL_FALLBACK_REPEATS then STALL_FALLBACK_REPEATS else window;
      recent, lastCallBatch, consecutive, semanticRecent := [], [], 0, [];
    }

    /** `observe_calls`: how often in a row this batch was requested. */
    method ObserveCalls(calls: seq<Operation>) returns (times: nat)
      requires Valid() && calls != []
      modifies this`lastCallBatch, this`consecutive
      ensures Valid() && lastCallBatch == calls && times == consecutive
      ensures times == if old(lastCallBatch) == calls then old(consecutive) + 1 else 1
    {
      if calls == lastCallBatch {
        consecutive := consecutive + 1;
      } else {
        lastCallBatch := calls;
        consecutive := 1;
      }
      return consecutive;
    }

    /** `observe`: how often the same calls gave results with the same ends within the window. */
    method Observe(calls: seq<Operation>, results: seq<string>) returns (repeats: nat)
      requires Valid()
      modifies this`recent
      ensures Valid() && repeats == Count(old(recent), FingerprintOf(calls, results)) + 1
      ensures recent == Last(old(recent) + [FingerprintOf(calls, results)], window)
    {
      var fingerprint := FingerprintOf(calls, results);
      repeats := Count(recent, fingerprint) + 1;
      recent := recent + [fingerprint];
      recent := Last(recent, window);
    }

    /** `observe_semantic_stall`: how often the same bag of no-progress signatures was seen since the last progress. */
    method ObserveSemanticStall(signature: string -> seq<string>, results: seq<string>,
                                mutationEffect: bool) returns (repeats: nat)
      requires Valid()
      modifies this`semanticRecent
      ensures Valid()
      ensures repeats == StallRepeats(old(semanticRecent), Signatures(signature, results), mutationEffect)
      ensures semanticRecent == NextBags(old(semanticRecent), Signatures(signature, results), mutationEffect, window)
    {
      if mutationEffect {
        semanticRecent := [];
        return 0;
      }
      var bag := Signatures(signature, results);
      if bag == multiset{} {
        semanticRecent := [];
        return 0;
      }
      repeats := Count(semanticRecent, bag) + 1;
      semanticRecent := Last(semanticRecent + [bag], window);
    }

    method Reset()
      requires Valid()
      modifies this
      ensures Valid() && lastCallBatch == [] && consecutive == 0 && recent == [] && semanticRecent == []
    {
      recent, semanticRecent, lastCallBatch, consecutive := [], [], [], 0;
    }
  }

  // ---- repeated batches ----

  /** A requested batch, and whether it was executed. */
  datatype BatchEvent = BatchEvent(batch: seq<Operation>, started: bool)

  /** What the guard remembers of the requested batches: the last one, or nothing after a batch that mutates nothing. */
  predicate Remembers(p: Policy, last: seq<Operation>, batches: seq<BatchEvent>) {
    if batches == [] then last == []
    else
      var latest := batches[|batches| - 1].batch;
      latest != [] && (last == latest || (last == [] && !MutatingBatch(p, latest)))
  }

  /** A mutating batch is never executed when it was also the batch requested just before. */
  predicate NeverRepeated(p: Policy, batches: seq<BatchEvent>) {
    forall j | 0 < j < |batches| && batches[j].started && MutatingBatch(p, batches[j].batch) ::
      batches[j - 1].batch != batches[j].batch
  }

  lemma BatchStep(p: Policy, last: seq<Operation>, batches: seq<BatchEvent>, e: BatchEvent, last': seq<Operation>)
    requires Remembers(p, last, batches) && NeverRepeated(p, batches) && e.batch != []
    requires e.started && MutatingBatch(p, e.batch) ==> last != e.batch
    requires last' == e.batch || (last' == [] && !MutatingBatch(p, e.batch))
    ensures Remembers(p, last', batches + [e]) && NeverRepeated(p, batches + [e])
  {
    hide MutatingBatch;
    var all := batches + [e];
    assert all[|batches|] == e;
    assert forall j | 0 <= j < |batches| :: all[j] == batches[j];
  }

  /**
   Between two executions of the same mutating batch a different batch was requested; turns without calls and resets
   of the guard do not matter.
   */
  lemma AnotherBatchInBetween(p: Policy, batches: seq<BatchEvent>, i: nat, j: nat)
    requires NeverRepeated(p, batches) && i < j < |batches|
    requires batches[i].started && batches[j].started && batches[i].batch == batches[j].batch
    requires MutatingBatch(p, batches[j].batch)
    ensures exists k :: i < k < j && batches[k].batch != batches[j].batch
  {
    assert batches[j - 1].batch != batches[j].batch;
  }

  /** A batch with a call that is classified as mutating is not executed right after the same batch was requested. */
  lemma MutatingCallsAreNotRepeated(p: Policy, batches: seq<BatchEvent>, j: nat, k: nat)
    requires NeverRepeated(p, batches) && 0 < j < |batches| && batches[j].started
    requires k < |batches[j].batch| && p.risk(batches[j].batch[k]).mutation
    ensures batches[j - 1].batch != batches[j].batch
  {
    assert MutatingBatch(p, batches[j].batch);
  }
}
