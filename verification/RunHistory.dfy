/**
 What a run did, recorded call by call, and the promises stated over such records: the verification gate, the
 inspection gate of resumed runs, reuse of results, and repetition of batches.
 */
module RunHistory {
  import opened Tools

  /**
   One processed call: executed; turned down (not offered to the model, incomplete, denied by a hook, or risky before an
   inspection); recalled; reused; or answered by the host alone.
   */
  datatype CallEvent =
    | Executed(op: Operation, outcome: Outcome)
    | TurnedDown(op: Operation, outcome: Outcome, allowed: bool)
    | Recalled(op: Operation)
    | Reused(op: Operation, result: string, world: World)
    | NotRun(op: Operation)

  type Log = seq<CallEvent>

  // ---- the verification gate ----

  predicate Succeeded(e: CallEvent) {
    e.Executed? && !e.outcome.isError
  }

  /** A successful call that changed state. */
  predicate IsEffect(p: Policy, e: CallEvent) {
    Succeeded(e) && p.effect(e.op) && !IsBehaviorCheck(p, e.op)
  }

  /**
   A call after which the run counts as having mutated: an effect, or a recalled read the classifier takes for one.
   */
  predicate CountsAsMutation(p: Policy, e: CallEvent) {
    IsEffect(p, e) || (e.Recalled? && p.effect(e.op))
  }

  predicate IsCheck(p: Policy, e: CallEvent) {
    Succeeded(e) && IsBehaviorCheck(p, e.op)
  }

  /** Position of the last effect, -1 when there is none. */
  function LastEffect(p: Policy, log: Log): (k: int)
    ensures -1 <= k < |log|
    ensures k >= 0 ==> IsEffect(p, log[k])
    ensures forall j | k < j < |log| :: !IsEffect(p, log[j])
  {
    if log == [] then -1
    else if IsEffect(p, log[|log| - 1]) then |log| - 1
    else LastEffect(p, log[..|log| - 1])
  }

  /** The run knows of a mutation before position `k`; `m0` is what a resumed plan already knew. */
  predicate KnowsMutation(p: Policy, m0: bool, log: Log, k: nat)
    requires k <= |log|
  {
    m0 || exists i :: 0 <= i < k && CountsAsMutation(p, log[i])
  }

  /**
   The call at `j` proves the state after the last effect: a check of a known mutation, or a self-verifying effect.
   */
  predicate VerifiesAt(p: Policy, m0: bool, log: Log, j: nat)
    requires j < |log|
  {
    || (IsCheck(p, log[j]) && KnowsMutation(p, m0, log, j))
    || (IsEffect(p, log[j]) && SelfVerifies(p, log[j].op, log[j].outcome.result))
  }

  /**
   The last effect verified itself or was followed by a successful check; without an effect in this run, an old proof
   counts.
   */
  predicate Verified(p: Policy, m0: bool, v0: bool, log: Log) {
    || (exists j :: LastEffect(p, log) <= j < |log| && 0 <= j && VerifiesAt(p, m0, log, j))
    || (LastEffect(p, log) < 0 && v0)
  }

  /** A successful `test` call followed the last effect, in this run. */
  predicate Tested(p: Policy, m0: bool, log: Log) {
    exists j :: LastEffect(p, log) < j < |log| && 0 <= j && log[j].op.tool.Test? && VerifiesAt(p, m0, log, j)
  }

  datatype Flags = Flags(mutation: bool, verification: bool, test: bool)

  /** The runtime flags mean what they are named after. */
  predicate FlagsMean(p: Policy, m0: bool, v0: bool, log: Log, f: Flags) {
    && (f.mutation <==> KnowsMutation(p, m0, log, |log|))
    && (f.verification <==> Verified(p, m0, v0, log))
    && (f.test <==> Tested(p, m0, log))
  }

  /** How the flags move on over one call. */
  function NextFlags(p: Policy, f: Flags, e: CallEvent): Flags {
    Flags(
      f.mutation || CountsAsMutation(p, e),
      if IsEffect(p, e) then SelfVerifies(p, e.op, e.outcome.result)
      else f.verification || (IsCheck(p, e) && f.mutation),
      !IsEffect(p, e) && (f.test || (IsCheck(p, e) && e.op.tool.Test? && f.mutation)))
  }

  lemma Appended(log: Log, e: CallEvent)
    ensures (log + [e])[..|log|] == log && (log + [e])[|log|] == e
  {
  }

  lemma {:induction false} LastEffectStep(p: Policy, log: Log, e: CallEvent)
    ensures LastEffect(p, log + [e]) == if IsEffect(p, e) then |log| else LastEffect(p, log)
  {
  }

  lemma KnowsMutationPrefix(p: Policy, m0: bool, log: Log, e: CallEvent, k: nat)
    requires k <= |log|
    ensures KnowsMutation(p, m0, log + [e], k) <==> KnowsMutation(p, m0, log, k)
  {
    assert forall i | 0 <= i < k :: (log + [e])[i] == log[i];
    if KnowsMutation(p, m0, log, k) && !m0 {
      var i :| 0 <= i < k && CountsAsMutation(p, log[i]);
      assert CountsAsMutation(p, (log + [e])[i]);
    }
  }

  lemma KnowsMutationStep(p: Policy, m0: bool, log: Log, e: CallEvent)
    ensures KnowsMutation(p, m0, log + [e], |log| + 1) <==> (KnowsMutation(p, m0, log, |log|) || CountsAsMutation(p, e))
  {
    KnowsMutationPrefix(p, m0, log, e, |log|);
    var all := log + [e];
    if CountsAsMutation(p, e) {
      assert CountsAsMutation(p, all[|log|]);
    }
    if KnowsMutation(p, m0, all, |log|) && !m0 {
      var i :| 0 <= i < |log| && CountsAsMutation(p, all[i]);
    }
  }

  /** Whether a new call proves the state after the last effect. */
  predicate VerifiesNow(p: Policy, m0: bool, log: Log, e: CallEvent) {
    || (IsCheck(p, e) && KnowsMutation(p, m0, log, |log|))
    || (IsEffect(p, e) && SelfVerifies(p, e.op, e.outcome.result))
  }

  lemma VerifiesAtStep(p: Policy, m0: bool, log: Log, e: CallEvent, j: nat)
    requires j <= |log|
    ensures VerifiesAt(p, m0, log + [e], j) <==> if j == |log| then VerifiesNow(p, m0, log, e)
                                                 else VerifiesAt(p, m0, log, j)
  {
    Appended(log, e);
    KnowsMutationPrefix(p, m0, log, e, j);
  }

  lemma VerifiedStep(p: Policy, m0: bool, v0: bool, log: Log, e: CallEvent)
    ensures Verified(p, m0, v0, log + [e]) <==>
            if IsEffect(p, e) then SelfVerifies(p, e.op, e.outcome.result)
            else Verified(p, m0, v0, log) || (IsCheck(p, e) && KnowsMutation(p, m0, log, |log|))
  {
    hide LastEffect, KnowsMutation, VerifiesAt;
    var all := log + [e];
    LastEffectStep(p, log, e);
    forall j: nat | j <= |log|
      ensures VerifiesAt(p, m0, all, j) <==> if j == |log| then VerifiesNow(p, m0, log, e)
                                             else VerifiesAt(p, m0, log, j)
    {
      VerifiesAtStep(p, m0, log, e, j);
    }
    assert VerifiesAt(p, m0, all, |log|) <==> VerifiesNow(p, m0, log, e);
    if Verified(p, m0, v0, log) && !IsEffect(p, e) {
      if j :| LastEffect(p, log) <= j < |log| && 0 <= j && VerifiesAt(p, m0, log, j) {
        assert VerifiesAt(p, m0, all, j);
      }
    }
  }

  lemma TestedStep(p: Policy, m0: bool, log: Log, e: CallEvent)
    ensures Tested(p, m0, log + [e]) <==>
            !IsEffect(p, e) && (Tested(p, m0, log) || (IsCheck(p, e) && e.op.tool.Test? && KnowsMutation(p, m0, log, |log|)))
  {
    hide LastEffect, KnowsMutation, VerifiesAt;
    var all := log + [e];
    LastEffectStep(p, log, e);
    forall j: nat | j <= |log|
      ensures VerifiesAt(p, m0, all, j) <==> if j == |log| then VerifiesNow(p, m0, log, e)
                                             else VerifiesAt(p, m0, log, j)
      ensures j < |log| ==> all[j] == log[j]
    {
      VerifiesAtStep(p, m0, log, e, j);
    }
    assert all[|log|] == e;
  }

  /** The flags keep their meaning over every call. */
  lemma FlagsKeepTheirMeaning(p: Policy, m0: bool, v0: bool, log: Log, f: Flags, e: CallEvent)
    requires FlagsMean(p, m0, v0, log, f)
    ensures FlagsMean(p, m0, v0, log + [e], NextFlags(p, f, e))
  {
    hide LastEffect, KnowsMutation, VerifiesAt, Verified, Tested;
    KnowsMutationStep(p, m0, log, e);
    VerifiedStep(p, m0, v0, log, e);
    TestedStep(p, m0, log, e);
  }

  /** A test after the mutation is a verification, and a verification needs a mutation. */
  lemma FlagsAreOrdered(p: Policy, m0: bool, v0: bool, log: Log, f: Flags)
    requires FlagsMean(p, m0, v0, log, f) && (v0 ==> m0)
    ensures (f.test ==> f.verification) && (f.verification ==> f.mutation)
  {
    if f.verification {
      if j :| LastEffect(p, log) <= j < |log| && 0 <= j && VerifiesAt(p, m0, log, j) {
        if IsEffect(p, log[j]) { assert CountsAsMutation(p, log[j]); }
        assert KnowsMutation(p, m0, log, |log|);
      }
    }
  }

  /** The stronger promise that every effect is followed by a check or verifies itself. */
  predicate EveryEffectVerified(p: Policy, log: Log) {
    forall i | 0 <= i < |log| && IsEffect(p, log[i]) :: Proven(p, log, i)
  }

  /** The call at `i` verified itself or was followed by a successful check. */
  predicate Proven(p: Policy, log: Log, i: nat)
    requires i < |log| && IsEffect(p, log[i])
  {
    SelfVerifies(p, log[i].op, log[i].outcome.result) || CheckedAfter(p, log, i)
  }

  predicate CheckedAfter(p: Policy, log: Log, i: int) {
    exists j :: i < j < |log| && 0 <= j && IsCheck(p, log[j])
  }

  /**
   The gate speaks of the last effect only: after an effect that was neither checked nor verified itself, a
   self-verifying edit opens the gate although that effect is still unproven.
   */
  lemma SelfVerifyingEditOpensTheGate(p: Policy, m0: bool, v0: bool, log: Log, e: CallEvent, i: nat)
    requires i < |log| && IsEffect(p, log[i]) && !Proven(p, log, i)
    requires IsEffect(p, e) && SelfVerifies(p, e.op, e.outcome.result)
    ensures Verified(p, m0, v0, log + [e]) && !EveryEffectVerified(p, log + [e])
  {
    hide Verified, SelfVerifies;
    VerifiedStep(p, m0, v0, log, e);
    var all := log + [e];
    assert all[|log|] == e && forall j | 0 <= j < |log| :: all[j] == log[j];
    assert IsEffect(p, all[i]) && !Proven(p, all, i);
  }

  /** A concrete log: a code edit, then an edit of a text file that reads back its own content, and no check at all. */
  lemma TwoEditsPassTheGateUnchecked(p: Policy, code: CallEvent, notes: CallEvent)
    requires IsEffect(p, code) && !SelfVerifies(p, code.op, code.outcome.result)
    requires IsEffect(p, notes) && SelfVerifies(p, notes.op, notes.outcome.result)
    ensures Verified(p, false, false, [code, notes]) && !EveryEffectVerified(p, [code, notes])
  {
    SelfVerifyingEditOpensTheGate(p, false, false, [code], notes, 0);
    assert [code] + [notes] == [code, notes];
  }

  /** Position of the last effect that did not verify itself, -1 when there is none. */
  function LastUnproven(p: Policy, log: Log): (k: int)
    ensures -1 <= k < |log|
    ensures k >= 0 ==> IsEffect(p, log[k]) && !SelfVerifies(p, log[k].op, log[k].outcome.result)
    ensures forall j | k < j < |log| && IsEffect(p, log[j]) :: SelfVerifies(p, log[j].op, log[j].outcome.result)
  {
    if log == [] then -1
    else
      var e := log[|log| - 1];
      if IsEffect(p, e) && !SelfVerifies(p, e.op, e.outcome.result) then |log| - 1
      else LastUnproven(p, log[..|log| - 1])
  }

  /**
   When the gate is passed, every effect is proven exactly unless the last effect verified itself and an earlier one did
   not, with no check after that one. So the gate gives the stronger promise whenever the last effect is one that needs
   a check.
   */
  lemma EveryEffectVerifiedExactlyWhen(p: Policy, m0: bool, v0: bool, log: Log)
    requires Verified(p, m0, v0, log)
    ensures var last, unproven := LastEffect(p, log), LastUnproven(p, log);
            EveryEffectVerified(p, log) <==> !(0 <= unproven < last && !CheckedAfter(p, log, unproven))
  {
    hide SelfVerifies, KnowsMutation;
    var last, unproven := LastEffect(p, log), LastUnproven(p, log);
    if unproven >= 0 && CheckedAfter(p, log, unproven) {
      var j :| unproven < j < |log| && IsCheck(p, log[j]);
      forall i | 0 <= i < |log| && IsEffect(p, log[i])
        ensures Proven(p, log, i)
      {
        if i > j { assert i > unproven; }
      }
    } else if unproven >= 0 && unproven == last {
      var j :| last <= j < |log| && 0 <= j && VerifiesAt(p, m0, log, j);
      assert false;
    }
  }

  // ---- the gate, tool by tool ----

  /** A successful call of a checking tool: `test`, `lint`, or a command that is classified as a check. */
  predicate PassedCheck(p: Policy, e: CallEvent) {
    && e.Executed? && !e.outcome.isError
    && (e.op.tool == Test || e.op.tool == Lint || (e.op.tool.CommandRunner? && p.commandChecks(e.op)))
  }

  /** A successful call of another tool that is classified as changing state. */
  predicate ChangedState(p: Policy, e: CallEvent) {
    && e.Executed? && !e.outcome.isError && p.effect(e.op)
    && e.op.tool != Test && e.op.tool != Lint && !(e.op.tool.CommandRunner? && p.commandChecks(e.op))
  }

  /** The change read itself back, which counts for directories and for edits of plain data files. */
  predicate ReadItselfBack(p: Policy, e: CallEvent)
    requires e.Executed?
  {
    && p.saysVerified(e.outcome.result)
    && (e.op.tool == DirectoryCreate || (e.op.tool == FileEdit && p.artifactPath(e.op)))
  }

  lemma EventsInPlainTerms(p: Policy, e: CallEvent)
    ensures IsEffect(p, e) <==> ChangedState(p, e)
    ensures IsCheck(p, e) <==> PassedCheck(p, e)
    ensures e.Executed? ==> (SelfVerifies(p, e.op, e.outcome.result) <==> ReadItselfBack(p, e))
  {
  }

  /**
   What the verification gate asks after a change of state, the last of which is at `last`: that change read itself
   back, or a check passed later; and for the stricter gate that a `test` call succeeded later.
   */
  lemma GateAfterAChange(p: Policy, m0: bool, v0: bool, log: Log, last: nat)
    requires last < |log| && ChangedState(p, log[last]) && forall j | last < j < |log| :: !ChangedState(p, log[j])
    ensures Verified(p, m0, v0, log) <==>
            ReadItselfBack(p, log[last]) || exists j :: last < j < |log| && PassedCheck(p, log[j])
    ensures Tested(p, m0, log) <==>
            exists j :: last < j < |log| && log[j].Executed? && !log[j].outcome.isError && log[j].op.tool == Test
  {
    hide SelfVerifies, LastEffect;
    forall j: nat | j < |log|
      ensures IsEffect(p, log[j]) <==> ChangedState(p, log[j])
      ensures IsCheck(p, log[j]) <==> PassedCheck(p, log[j])
      ensures last < j ==> KnowsMutation(p, m0, log, j)
    {
      EventsInPlainTerms(p, log[j]);
      EventsInPlainTerms(p, log[last]);
      if last < j { assert CountsAsMutation(p, log[last]); }
    }
    assert LastEffect(p, log) == last;
    EventsInPlainTerms(p, log[last]);
    if j :| last < j < |log| && PassedCheck(p, log[j]) { assert VerifiesAt(p, m0, log, j); }
    if j :| last < j < |log| && log[j].Executed? && !log[j].outcome.isError && log[j].op.tool == Test {
      assert VerifiesAt(p, m0, log, j);
    }
    if ReadItselfBack(p, log[last]) { assert VerifiesAt(p, m0, log, last); }
  }

  /** Without a change of state in this run, a proof comes from a resumed plan or from a check of an older mutation. */
  lemma GateWithoutAChange(p: Policy, m0: bool, v0: bool, log: Log)
    requires forall j | 0 <= j < |log| :: !ChangedState(p, log[j])
    ensures Verified(p, m0, v0, log) <==>
            v0 || exists j :: 0 <= j < |log| && PassedCheck(p, log[j]) && KnowsMutation(p, m0, log, j)
    ensures KnowsMutation(p, m0, log, |log|) <==>
            m0 || exists j :: 0 <= j < |log| && log[j].Recalled? && p.effect(log[j].op)
  {
    hide SelfVerifies, LastEffect, KnowsMutation;
    forall j: nat | j < |log|
      ensures !IsEffect(p, log[j]) && (IsCheck(p, log[j]) <==> PassedCheck(p, log[j]))
    {
      EventsInPlainTerms(p, log[j]);
    }
    assert LastEffect(p, log) == -1;
    if j :| 0 <= j < |log| && PassedCheck(p, log[j]) && KnowsMutation(p, m0, log, j) {
      assert VerifiesAt(p, m0, log, j);
    }
    OnlyRecallsCount(p, m0, log);
  }

  lemma OnlyRecallsCount(p: Policy, m0: bool, log: Log)
    requires forall j | 0 <= j < |log| :: !IsEffect(p, log[j])
    ensures KnowsMutation(p, m0, log, |log|) <==>
            m0 || exists j :: 0 <= j < |log| && log[j].Recalled? && p.effect(log[j].op)
  {
    hide IsEffect;
    if j :| 0 <= j < |log| && log[j].Recalled? && p.effect(log[j].op) { assert CountsAsMutation(p, log[j]); }
  }

  // ---- the inspection gate of resumed runs ----

  predicate IsFreshInspection(e: CallEvent) {
    Succeeded(e) && IsInspection(e.op.tool)
  }

  /** A successful inspection was executed before position `k`. */
  predicate InspectedBefore(log: Log, k: nat)
    requires k <= |log|
  {
    exists i :: 0 <= i < k && IsFreshInspection(log[i])
  }

  /** Every executed call classed mutating or destructive comes after an executed, successful inspection. */
  predicate RiskOnlyAfterInspection(p: Policy, log: Log) {
    forall j | 0 <= j < |log| && log[j].Executed? && IsRisky(p, log[j].op) :: InspectedBefore(log, j)
  }

  /** Only a successful read or another inspecting tool opens the inspection gate. */
  lemma InspectedMeans(log: Log, k: nat)
    requires k <= |log|
    ensures InspectedBefore(log, k) <==>
            exists i :: 0 <= i < k && log[i].Executed? && !log[i].outcome.isError
                        && (log[i].op.tool == FileRead || log[i].op.tool.OtherInspection?)
  {
    if i :| 0 <= i < k && log[i].Executed? && !log[i].outcome.isError
            && (log[i].op.tool == FileRead || log[i].op.tool.OtherInspection?)
    {
      assert IsFreshInspection(log[i]);
    }
  }

  lemma InspectedStep(log: Log, e: CallEvent)
    ensures InspectedBefore(log + [e], |log| + 1) <==> (InspectedBefore(log, |log|) || IsFreshInspection(e))
    ensures forall k: nat | k <= |log| :: InspectedBefore(log + [e], k) <==> InspectedBefore(log, k)
  {
    var all := log + [e];
    assert forall i | 0 <= i < |log| :: all[i] == log[i];
    assert all[|log|] == e;
    forall k: nat | k <= |log| && InspectedBefore(log, k)
      ensures InspectedBefore(all, k)
    {
      var i :| 0 <= i < k && IsFreshInspection(log[i]);
      assert IsFreshInspection(all[i]);
    }
    if IsFreshInspection(e) {
      assert IsFreshInspection(all[|log|]);
    }
    if InspectedBefore(log, |log|) {
      var i :| 0 <= i < |log| && IsFreshInspection(log[i]);
      assert IsFreshInspection(all[i]);
    }
  }

  lemma RiskStep(p: Policy, log: Log, e: CallEvent)
    requires RiskOnlyAfterInspection(p, log)
    requires e.Executed? && IsRisky(p, e.op) ==> InspectedBefore(log, |log|)
    ensures RiskOnlyAfterInspection(p, log + [e])
  {
    InspectedStep(log, e);
    hide InspectedBefore;
    Appended(log, e);
    assert forall i | 0 <= i < |log| :: (log + [e])[i] == log[i];
  }

  /** What the flags of a run mean, together: the verification gate and the inspection gate. */
  predicate RunMeans(p: Policy, m0: bool, v0: bool, resumed: bool, log: Log, f: Flags, inspected: bool) {
    && (v0 ==> m0)
    && FlagsMean(p, m0, v0, log, f)
    && (inspected <==> !resumed || InspectedBefore(log, |log|))
    && (resumed ==> RiskOnlyAfterInspection(p, log))
  }

  lemma RunMeansAtTheStart(p: Policy, m0: bool, v0: bool, resumed: bool)
    requires v0 ==> m0
    ensures RunMeans(p, m0, v0, resumed, [], Flags(m0, v0, false), !resumed)
  {
  }

  lemma FlagsInOrder(p: Policy, m0: bool, v0: bool, resumed: bool, log: Log, f: Flags, inspected: bool)
    requires RunMeans(p, m0, v0, resumed, log, f, inspected)
    ensures (f.test ==> f.verification) && (f.verification ==> f.mutation)
  {
  }

  /** One more call, risky ones in a resumed run only after an inspection. */
  lemma RunMeansStep(p: Policy, m0: bool, v0: bool, resumed: bool, log: Log, f: Flags, inspected: bool, e: CallEvent)
    requires RunMeans(p, m0, v0, resumed, log, f, inspected)
    requires resumed && e.Executed? && IsRisky(p, e.op) ==> inspected
    ensures RunMeans(p, m0, v0, resumed, log + [e], NextFlags(p, f, e), inspected || IsFreshInspection(e))
    ensures (f.test ==> f.verification) && (f.verification ==> f.mutation)
  {
    hide FlagsMean, InspectedBefore, RiskOnlyAfterInspection, NextFlags;
    FlagsKeepTheirMeaning(p, m0, v0, log, f, e);
    FlagsAreOrdered(p, m0, v0, log, f);
    InspectedStep(log, e);
    if resumed { RiskStep(p, log, e); }
  }

  /** Spelled out: a mutating or destructive call that ran has a successful read or other inspection before it. */
  lemma RiskComesAfterARead(p: Policy, log: Log, j: nat)
    requires RiskOnlyAfterInspection(p, log) && j < |log|
    requires log[j].Executed? && (p.risk(log[j].op).mutation || p.risk(log[j].op).destructive)
    ensures exists i :: 0 <= i < j && log[i].Executed? && !log[i].outcome.isError
                        && (log[i].op.tool == FileRead || log[i].op.tool.OtherInspection?)
  {
    InspectedMeans(log, j);
  }

  // ---- calls denied without an error ----

  /** A stage policy denied the call: nothing ran, and the result is no error all the same. */
  predicate DeniedQuietly(p: Policy, e: CallEvent) {
    Succeeded(e) && p.saysDenied(e.outcome.result)
  }

  /** What the call really was. */
  function Reality(p: Policy, e: CallEvent): CallEvent {
    if DeniedQuietly(p, e) then NotRun(e.op) else e
  }

  function Really(p: Policy, log: Log): (r: Log)
    ensures |r| == |log| && forall k | 0 <= k < |log| :: r[k] == Reality(p, log[k])
  {
    seq(|log|, k requires 0 <= k < |log| => Reality(p, log[k]))
  }

  /** A call whose result says it was denied, although it is no error, did not run; any other entry is what happened. */
  lemma ReallyMeans(p: Policy, log: Log, k: nat)
    requires k < |log|
    ensures Really(p, log)[k] == if log[k].Executed? && !log[k].outcome.isError && p.saysDenied(log[k].outcome.result)
                                 then NotRun(log[k].op) else log[k]
  {
  }

  /** The log says what really ran, and so do both gates, exactly when no call was denied quietly. */
  lemma LogTellsWhatRanExactlyWhen(p: Policy, log: Log)
    ensures Really(p, log) == log <==> forall k | 0 <= k < |log| :: !DeniedQuietly(p, log[k])
  {
    if k :| 0 <= k < |log| && DeniedQuietly(p, log[k]) {
      assert Really(p, log)[k] != log[k];
    }
  }

  /** In reality the inspection gate opens exactly with an inspection that was not denied. */
  lemma ReallyInspectedExactlyWhen(p: Policy, log: Log, k: nat)
    requires k <= |log|
    ensures InspectedBefore(Really(p, log), k) <==>
            exists i :: 0 <= i < k && IsFreshInspection(log[i]) && !DeniedQuietly(p, log[i])
  {
    if i :| 0 <= i < k && IsFreshInspection(log[i]) && !DeniedQuietly(p, log[i]) {
      assert IsFreshInspection(Really(p, log)[i]);
    }
    if i :| 0 <= i < k && IsFreshInspection(Really(p, log)[i]) {
      assert IsFreshInspection(log[i]) && !DeniedQuietly(p, log[i]);
    }
  }

  /** A denied test opens the verification gate after an edit, and a denied read the inspection gate. */
  lemma DeniedCallsOpenTheGates(p: Policy, edit: CallEvent, test: CallEvent, read: CallEvent)
    requires IsEffect(p, edit) && !SelfVerifies(p, edit.op, edit.outcome.result) && !DeniedQuietly(p, edit)
    requires IsCheck(p, test) && test.op.tool.Test? && DeniedQuietly(p, test)
    requires IsFreshInspection(read) && DeniedQuietly(p, read)
    ensures Verified(p, false, false, [edit, test]) && Tested(p, false, [edit, test])
    ensures !Verified(p, false, false, Really(p, [edit, test]))
    ensures InspectedBefore([read], 1) && !InspectedBefore(Really(p, [read]), 1)
  {
    hide SelfVerifies, DeniedQuietly, LastEffect, Verified, Tested;
    var log := [edit];
    EditAlone(p, edit);
    assert log + [test] == [edit, test] && log + [NotRun(test.op)] == Really(p, [edit, test]);
    VerifiedStep(p, false, false, log, test);
    TestedStep(p, false, log, test);
    VerifiedStep(p, false, false, log, NotRun(test.op));
    assert IsFreshInspection([read][0]);
  }

  lemma EditAlone(p: Policy, edit: CallEvent)
    requires IsEffect(p, edit) && !SelfVerifies(p, edit.op, edit.outcome.result)
    ensures KnowsMutation(p, false, [edit], 1) && !Verified(p, false, false, [edit])
  {
    hide SelfVerifies;
    assert CountsAsMutation(p, [edit][0]);
    VerifiedStep(p, false, false, [], edit);
    assert [] + [edit] == [edit];
  }

  // ---- reuse of results ----

  /** Every reused result is what executing the call at that moment would have returned. */
  predicate ReusesAreFaithful(run: (Operation, World) -> Execution, log: Log) {
    forall i | 0 <= i < |log| && log[i].Reused? :: run(log[i].op, log[i].world).outcome == Outcome(log[i].result, false)
  }

  lemma ReuseStep(run: (Operation, World) -> Execution, log: Log, e: CallEvent)
    requires ReusesAreFaithful(run, log)
    requires e.Reused? ==> run(e.op, e.world).outcome == Outcome(e.result, false)
    ensures ReusesAreFaithful(run, log + [e])
  {
  }

  /** No recalled read was taken for a mutation. */
  predicate NoRecallCounted(p: Policy, log: Log) {
    forall i | 0 <= i < |log| && log[i].Recalled? :: !p.effect(log[i].op)
  }

  lemma NoRecallStep(p: Policy, log: Log, e: CallEvent)
    ensures NoRecallCounted(p, log + [e]) <==> NoRecallCounted(p, log) && !(e.Recalled? && p.effect(e.op))
  {
    var all := log + [e];
    assert all[|log|] == e && forall i | 0 <= i < |log| :: all[i] == log[i];
  }

  /** Spelled out: what a reused result and a recalled read promise. */
  lemma ReusesAndRecallsMean(p: Policy, run: (Operation, World) -> Execution, log: Log)
    ensures ReusesAreFaithful(run, log) ==>
              forall i | 0 <= i < |log| && log[i].Reused? ::
                run(log[i].op, log[i].world).outcome == Outcome(log[i].result, false)
    ensures (forall i | 0 <= i < |log| :: !log[i].Recalled? || !p.effect(log[i].op)) ==> NoRecallCounted(p, log)
  {
  }
}
