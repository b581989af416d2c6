/**
 Tool operations as the run loop sees them (aicoder/agent_runtime.py, aicoder/privileges.py, aicoder/executor.py).
 The text classifiers are uninterpreted functions of a policy.
 */
module Tools {

  /** Tool names by the role they play for the run loop. */
  datatype Tool =
    | RuntimeComplete
    | MetaTool(name: string)
    | FileRead
    | OtherInspection(name: string)
    | FileEdit
    | DirectoryCreate
    | Test
    | Lint
    | CommandRunner(name: string)
    | OtherTool(name: string)

  /** The semantic identity of a call: its name and its arguments. */
  datatype Operation = Operation(tool: Tool, arguments: map<string, string>)

  datatype Outcome = Outcome(result: string, isError: bool)

  datatype Risk = Risk(mutation: bool, destructive: bool)

  /** A classified failure text: the signature of its family and whether its category may be retried. */
  datatype Diagnosis = Diagnosis(signature: string, retryable: bool)

  datatype Policy = Policy(
    risk: Operation -> Risk,
    effect: Operation -> bool,
    commandChecks: Operation -> bool,
    artifactPath: Operation -> bool,
    saysVerified: string -> bool,
    saysRejected: string -> bool,
    saysDenied: string -> bool,
    saysHardTimeout: string -> bool,
    stallSignature: string -> seq<string>,
    readKey: Operation -> string,
    diagnose: string -> Diagnosis)

  /** What the tools act on. */
  type World = map<string, string>

  /** Executing an operation in a world. */
  datatype Execution = Execution(outcome: Outcome, world: World)

  predicate IsInspection(tool: Tool) {
    tool.FileRead? || tool.OtherInspection?
  }

  /** `_is_behavior_verification_call`. */
  predicate IsBehaviorCheck(p: Policy, op: Operation) {
    match op.tool
    case Test => true
    case Lint => true
    case CommandRunner(_) => p.commandChecks(op)
    case _ => false
  }

  predicate IsRisky(p: Policy, op: Operation) {
    p.risk(op).mutation || p.risk(op).destructive
  }

  /** A call that clears the result cache when it succeeds. */
  predicate IsStateMutation(p: Policy, op: Operation) {
    p.risk(op).mutation && !IsBehaviorCheck(p, op)
  }

  /** The read-back a tool reports proves the intended state, for directories and plain data files only. */
  predicate SelfVerifies(p: Policy, op: Operation, result: string) {
    p.saysVerified(result) && (op.tool.DirectoryCreate? || (op.tool.FileEdit? && p.artifactPath(op)))
  }

  predicate MutatingBatch(p: Policy, batch: seq<Operation>) {
    exists k :: 0 <= k < |batch| && p.risk(batch[k]).mutation
  }
}
