/**
 Chains of resumed runs (aicoder/agent_runtime.py:1205): each run starts from the progress flags its predecessor left
 in the plan. The verification gate of the last run then speaks of the whole story, not only of that run.
 */
module ResumedRuns {
  import opened Tools
  import opened RunHistory

  /** What one run did, and the flags it left in the plan. */
  datatype RunRecord = RunRecord(log: Log, mutation: bool, verification: bool)

  /**
   Left flags are on the safe side of a log that began with `m0` and `v0`: they forget no mutation and invent no proof.
   */
  predicate Carries(p: Policy, m0: bool, v0: bool, log: Log, mutation: bool, verification: bool) {
    && (KnowsMutation(p, m0, log, |log|) ==> mutation)
    && (verification ==> Verified(p, m0, v0, log))
  }

  /** Every run starts from what the run before it left, the first one from nothing. */
  predicate Chained(p: Policy, runs: seq<RunRecord>) {
    runs != [] ==>
      var k := |runs| - 1;
      var (m, v) := LeftBy(runs[..k]);
      && Chained(p, runs[..k])
      && Carries(p, m, v, runs[k].log, runs[k].mutation, runs[k].verification)
  }

  function LeftBy(runs: seq<RunRecord>): (bool, bool) {
    if runs == [] then (false, false) else (runs[|runs| - 1].mutation, runs[|runs| - 1].verification)
  }

  /** One more run that leaves what it carries extends a chain. */
  lemma ChainGrows(p: Policy, runs: seq<RunRecord>, log: Log, mutation: bool, verification: bool)
    requires Chained(p, runs)
    requires var (m, v) := LeftBy(runs); Carries(p, m, v, log, mutation, verification)
    ensures Chained(p, runs + [RunRecord(log, mutation, verification)])
    ensures LeftBy(runs + [RunRecord(log, mutation, verification)]) == (mutation, verification)
    ensures Chained(p, []) && LeftBy([]) == (false, false)
  {
    hide Carries;
    assert (runs + [RunRecord(log, mutation, verification)])[..|runs|] == runs;
  }

  /** All calls of a chain, in order. */
  function Story(runs: seq<RunRecord>): Log {
    if runs == [] then [] else Story(runs[..|runs| - 1]) + runs[|runs| - 1].log
  }

  lemma Joined(a: Log, b: Log)
    ensures |a + b| == |a| + |b|
    ensures forall i | 0 <= i < |a| :: (a + b)[i] == a[i]
    ensures forall i | 0 <= i < |b| :: (a + b)[|a| + i] == b[i]
  {
  }

  lemma LastEffectOfJoined(p: Policy, a: Log, b: Log)
    ensures LastEffect(p, a + b) == if LastEffect(p, b) >= 0 then |a| + LastEffect(p, b) else LastEffect(p, a)
  {
    hide IsEffect;
    Joined(a, b);
    assert forall i | 0 <= i < |a| :: IsEffect(p, (a + b)[i]) <==> IsEffect(p, a[i]);
    assert forall i | 0 <= i < |b| :: IsEffect(p, (a + b)[|a| + i]) <==> IsEffect(p, b[i]);
    var k := LastEffect(p, a + b);
    if k >= |a| {
      assert (a + b)[k] == b[k - |a|];
    }
  }

  lemma KnowsOfJoined(p: Policy, m0: bool, a: Log, b: Log, j: nat)
    requires j <= |b|
    ensures KnowsMutation(p, m0, a + b, |a| + j) <==> KnowsMutation(p, KnowsMutation(p, m0, a, |a|), b, j)
    ensures forall i: nat | i <= |a| :: KnowsMutation(p, m0, a + b, i) <==> KnowsMutation(p, m0, a, i)
  {
    hide CountsAsMutation;
    Joined(a, b);
    var all := a + b;
    if i :| 0 <= i < |a| + j && CountsAsMutation(p, all[i]) {
      if i < |a| { assert CountsAsMutation(p, a[i]); } else { assert CountsAsMutation(p, b[i - |a|]); }
    }
    if i :| 0 <= i < |a| && CountsAsMutation(p, a[i]) { assert CountsAsMutation(p, all[i]); }
    if i :| 0 <= i < j && CountsAsMutation(p, b[i]) { assert CountsAsMutation(p, all[|a| + i]); }
    forall k: nat | k <= |a|
      ensures KnowsMutation(p, m0, all, k) <==> KnowsMutation(p, m0, a, k)
    {
      if i :| 0 <= i < k && CountsAsMutation(p, a[i]) { assert CountsAsMutation(p, all[i]); }
    }
  }

  /** A proof within the first log stays one in the joined log as long as no effect follows. */
  lemma OldProofStays(p: Policy, m0: bool, v0: bool, a: Log, b: Log)
    requires Verified(p, m0, v0, a) && LastEffect(p, b) < 0
    ensures Verified(p, m0, v0, a + b)
  {
    hide KnowsMutation, IsEffect, IsCheck, LastEffect;
    Joined(a, b);
    LastEffectOfJoined(p, a, b);
    KnowsOfJoined(p, m0, a, b, 0);
    if j :| LastEffect(p, a) <= j < |a| && 0 <= j && VerifiesAt(p, m0, a, j) {
      assert VerifiesAt(p, m0, a + b, j);
    }
  }

  /** A proof within the second log is one in the joined log, if the mutation it proves was known by then. */
  lemma NewProofCounts(p: Policy, m0: bool, m: bool, v0: bool, a: Log, b: Log, j: nat)
    requires j < |b| && LastEffect(p, b) <= j && VerifiesAt(p, m, b, j)
    requires IsCheck(p, b[j]) ==> KnowsMutation(p, m0, a + b, |a| + j)
    ensures Verified(p, m0, v0, a + b)
  {
    hide KnowsMutation, IsEffect, IsCheck, LastEffect;
    Joined(a, b);
    LastEffectOfJoined(p, a, b);
    assert VerifiesAt(p, m0, a + b, |a| + j);
  }

  /** A check after the last effect of the joined log checks a known mutation. */
  lemma KnownByTheLastEffect(p: Policy, m0: bool, a: Log, b: Log, j: nat)
    requires j < |b| && LastEffect(p, a + b) >= 0 && LastEffect(p, b) < j
    ensures KnowsMutation(p, m0, a + b, |a| + j)
  {
  }

  /** What is known of a whole story: its last effect was proven if the flags say so. */
  predicate Tells(p: Policy, story: Log, mutation: bool, verification: bool) {
    && (KnowsMutation(p, false, story, |story|) ==> mutation)
    && (verification && LastEffect(p, story) >= 0 ==> Verified(p, false, false, story))
  }

  /** A proof of one more run is a proof of the whole story. */
  lemma StoryGoesOn(p: Policy, story: Log, m: bool, v: bool, log: Log)
    requires Tells(p, story, m, v) && Verified(p, m, v, log) && LastEffect(p, story + log) >= 0
    ensures Verified(p, false, false, story + log)
  {
    hide LastEffect, IsEffect, IsCheck, KnowsMutation, SelfVerifies;
    LastEffectOfJoined(p, story, log);
    if j :| LastEffect(p, log) <= j < |log| && 0 <= j && VerifiesAt(p, m, log, j) {
      if IsCheck(p, log[j]) {
        CheckIsNoEffect(p, log, j);
        KnownByTheLastEffect(p, false, story, log, j);
      }
      NewProofCounts(p, false, m, false, story, log, j);
    } else {
      OldProofStays(p, false, false, story, log);
    }
  }

  lemma CheckIsNoEffect(p: Policy, log: Log, j: nat)
    requires j < |log| && IsCheck(p, log[j])
    ensures j != LastEffect(p, log)
  {
  }

  lemma StoryKnows(p: Policy, story: Log, m: bool, v: bool, log: Log)
    requires Tells(p, story, m, v) && KnowsMutation(p, false, story + log, |story + log|)
    ensures KnowsMutation(p, m, log, |log|)
  {
  }

  /** The flags a chain of runs leaves tell the truth about its whole story. */
  lemma {:induction false} ChainsTell(p: Policy, runs: seq<RunRecord>)
    requires Chained(p, runs)
    ensures var (m, v) := LeftBy(runs);
            Tells(p, Story(runs), m, v)
  {
    hide LastEffect, Verified, KnowsMutation;
    if runs == [] {
      NothingToTell(p);
    } else {
      var k := |runs| - 1;
      ChainsTell(p, runs[..k]);
      var (m, v) := LeftBy(runs[..k]);
      var story, log := Story(runs[..k]), runs[k].log;
      if KnowsMutation(p, false, story + log, |story + log|) { StoryKnows(p, story, m, v, log); }
      if runs[k].verification && LastEffect(p, story + log) >= 0 { StoryGoesOn(p, story, m, v, log); }
    }
  }

  lemma NothingToTell(p: Policy)
    ensures Tells(p, [], false, false)
  {
  }

  lemma AnEffectIsKnown(p: Policy, log: Log)
    requires LastEffect(p, log) >= 0
    ensures KnowsMutation(p, false, log, |log|)
  {
  }

  /**
   However often a task was paused and resumed: when its last run passes the gate, the last effect of the whole story
   verified itself or was followed by a successful check.
   */
  lemma CompletedStoryIsVerified(p: Policy, runs: seq<RunRecord>, last: Log)
    requires Chained(p, runs)
    requires var (m, v) := LeftBy(runs);
             KnowsMutation(p, m, last, |last|) ==> Verified(p, m, v, last)
    ensures var story := Story(runs) + last;
            LastEffect(p, story) >= 0 ==> Verified(p, false, false, story)
  {
    hide Chained, Story, Verified, KnowsMutation, LastEffect;
    ChainsTell(p, runs);
    var (m, v) := LeftBy(runs);
    var story := Story(runs) + last;
    if LastEffect(p, story) >= 0 {
      AnEffectIsKnown(p, story);
      StoryKnows(p, Story(runs), m, v, last);
      StoryGoesOn(p, Story(runs), m, v, last);
    }
  }
}
