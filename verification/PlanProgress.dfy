/**
 How the persistent plan follows the runtime flags (aicoder/agent_runtime.py, _record_tool_progress): the plan is what
 a resumed run starts from, so it must never know more proof or less mutation than the run.
 */
module PlanProgress {
  import opened AgentPlan
  import opened Tools

  /** The plan steps after one recorded call; `mutation` is the flag before it. */
  function Recorded(p: Policy, steps: seq<PlanStep>, op: Operation, outcome: Outcome,
                    mutation: bool): (r: seq<PlanStep>)
    requires Shaped(steps)
    ensures Shaped(r)
  {
    var check, effect := IsBehaviorCheck(p, op), p.effect(op);
    var inspected := steps[0 := PlanStep(Inspect, Done)];
    if outcome.isError then steps
    else if check && mutation then inspected[2 := PlanStep(Verify, Done)]
    else if effect then
      inspected[1 := PlanStep(Implement, Done)]
               [2 := PlanStep(Verify, if !check && SelfVerifies(p, op, outcome.result) then Done else InProgress)]
    else if check || IsInspection(op.tool) then inspected
    else if steps[0].status == InProgress then inspected[1 := PlanStep(Implement, InProgress)]
    else steps
  }

  /** The plan is on the safe side: it knows every mutation of the run and no proof the run does not have. */
  predicate OnTheSafeSide(steps: seq<PlanStep>, mutation: bool, verification: bool) {
    var (m, v) := ProgressFlags(steps);
    (mutation ==> m) && (v ==> verification)
  }

  /** Moreover the plan's proof is the run's proof. */
  predicate SameProof(steps: seq<PlanStep>, verification: bool) {
    ProgressFlags(steps).1 == verification
  }

  /** An executed call keeps the plan sound, on the safe side, and equal in its proof. */
  lemma ExecutedCallKeepsThePlan(p: Policy, steps: seq<PlanStep>, op: Operation, outcome: Outcome, mutation: bool,
                                 verification: bool)
    requires Sound(steps) && OnTheSafeSide(steps, mutation, verification) && (verification ==> mutation)
    ensures var effect := !outcome.isError && p.effect(op) && !IsBehaviorCheck(p, op);
            var check := !outcome.isError && IsBehaviorCheck(p, op);
            var m := mutation || effect;
            var v := if effect then SelfVerifies(p, op, outcome.result) else verification || (check && mutation);
            var after := Recorded(p, steps, op, outcome, mutation);
            Sound(after) && OnTheSafeSide(after, m, v) && (SameProof(steps, verification) ==> SameProof(after, v))
  {
    hide SelfVerifies, IsBehaviorCheck;
    FlagsOfShaped(steps);
    FlagsOfShaped(Recorded(p, steps, op, outcome, mutation));
  }

  /**
   A recalled read keeps the plan on the safe side, and its proof equal exactly unless the read was taken for a mutation
   of a proven run.
   */
  lemma RecalledReadKeepsThePlan(p: Policy, steps: seq<PlanStep>, op: Operation, result: string, mutation: bool,
                                 verification: bool)
    requires Sound(steps) && OnTheSafeSide(steps, mutation, verification) && (verification ==> mutation)
    requires op.tool.FileRead?
    ensures var after := Recorded(p, steps, op, Outcome(result, false), mutation);
            && Sound(after) && OnTheSafeSide(after, mutation || p.effect(op), verification)
            && (SameProof(steps, verification) ==> (SameProof(after, verification) <==> !(p.effect(op) && verification)))
  {
    FlagsOfShaped(steps);
    FlagsOfShaped(Recorded(p, steps, op, Outcome(result, false), mutation));
  }

  /** A successful call that marks the implementation done without counting as a mutation of the run. */
  predicate MarksWithoutMutation(p: Policy, op: Operation, outcome: Outcome, mutation: bool) {
    !outcome.isError && IsBehaviorCheck(p, op) && p.effect(op) && !mutation
  }

  /**
   The persisted mutation flag after a call equals the runtime one exactly when the run knows a mutation by then, or the
   flags were equal and the call is no check that is classified as changing state.
   */
  lemma PersistedMutationIsEqualExactlyWhen(p: Policy, steps: seq<PlanStep>, op: Operation, outcome: Outcome,
                                            mutation: bool)
    requires Sound(steps) && (mutation ==> ProgressFlags(steps).0)
    ensures var after := mutation || (!outcome.isError && p.effect(op) && !IsBehaviorCheck(p, op));
            ProgressFlags(Recorded(p, steps, op, outcome, mutation)).0 == after <==>
            after || (!ProgressFlags(steps).0 && !MarksWithoutMutation(p, op, outcome, mutation))
  {
    hide SelfVerifies, IsBehaviorCheck;
    FlagsOfShaped(steps);
    FlagsOfShaped(Recorded(p, steps, op, outcome, mutation));
  }

  /**
   So only the safe direction holds for the mutation flag: a check that is classified as changing state, run before any
   mutation, marks the implementation done although the run has seen no mutation.
   */
  lemma PlanMayKnowMoreMutations(p: Policy, steps: seq<PlanStep>, op: Operation, result: string)
    requires Sound(steps) && IsBehaviorCheck(p, op) && p.effect(op)
    ensures ProgressFlags(Recorded(p, steps, op, Outcome(result, false), false)) == (true, false)
  {
    FlagsOfShaped(Recorded(p, steps, op, Outcome(result, false), false));
  }

  /** The plan steps when a run completes: unneeded steps are skipped, done ones stay done. */
  function Finished(steps: seq<PlanStep>, mutation: bool, verification: bool): (r: seq<PlanStep>)
    requires Shaped(steps)
    ensures Shaped(r)
  {
    if !mutation then [PlanStep(Inspect, Done), PlanStep(Implement, Skipped), PlanStep(Verify, Skipped)]
    else if !verification && steps[2].status != Done then steps[2 := PlanStep(Verify, Skipped)]
    else steps
  }

  lemma FinishingKeepsThePlan(steps: seq<PlanStep>, mutation: bool, verification: bool)
    requires Sound(steps) && OnTheSafeSide(steps, mutation, verification) && (verification ==> mutation)
    ensures var after := Finished(steps, mutation, verification);
            Sound(after) && OnTheSafeSide(after, mutation, verification)
            && (SameProof(steps, verification) ==> SameProof(after, verification))
  {
    FlagsOfShaped(steps);
    FlagsOfShaped(Finished(steps, mutation, verification));
  }
}
