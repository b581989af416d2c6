/**
 Failure families (aicoder/failure_tracking.py, FailureTracker) and the failure circuit of the run loop
 (aicoder/agent_runtime.py, blocked_failure_calls), which stops a call that keeps reproducing one failure.
 */
module FailureTracking {
  import opened Wrappers
  import opened Tools
  import opened RunHistory

  datatype Observation = Observation(signature: string, count: nat, retryable: bool)

  const RETRY_BUDGET: nat := 2

  type Counts = map<string, nat>

  function CountIn(counts: Counts, signature: string): nat {
    if signature in counts then counts[signature] else 0
  }

  class FailureTracker {
    var counts: Counts

    constructor ()
      ensures counts == map[]
    {
      counts := map[];
    }

    /**
     `observe`: count a failure under its signature. A retryable family stops being retryable once its count exceeds
     the budget, so no observation with a count of three or more is retryable.
     */
    method Observe(diagnose: string -> Diagnosis, result: string, isError: bool) returns (r: Option<Observation>)
      modifies this
      ensures r.Some? <==> isError
      ensures !isError ==> counts == old(counts)
      ensures isError ==>
                var s := diagnose(result).signature;
                r.value.signature == s && r.value.count == CountIn(old(counts), s) + 1
                && counts == old(counts)[s := r.value.count]
                && (r.value.retryable <==> diagnose(result).retryable && r.value.count <= RETRY_BUDGET)
    {
      if !isError { return None; }
      var d := diagnose(result);
      var count := CountIn(counts, d.signature) + 1;
      counts := counts[d.signature := count];
      var retryable := d.retryable;
      if retryable && count > RETRY_BUDGET { retryable := false; }
      return Some(Observation(d.signature, count, retryable));
    }

    method Reset()
      modifies this
      ensures counts == map[]
    {
      counts := map[];
    }
  }

  // ---- the circuit ----

  /** An allowed call that does not mutate state failed, since the last successful state mutation. */
  datatype Failing = Failing(op: Operation, signature: string)

  type Blocked = map<Operation, string>

  function CountOf(failures: seq<Failing>, signature: string): nat {
    if failures == [] then 0
    else CountOf(failures[..|failures| - 1], signature) + if failures[|failures| - 1].signature == signature then 1 else 0
  }

  /** The different calls that failed with a signature. */
  function OpsOf(failures: seq<Failing>, signature: string): set<Operation> {
    set f | f in failures && f.signature == signature :: f.op
  }

  function BlockedOpsOf(failures: seq<Failing>, signature: string, blocked: Blocked): set<Operation> {
    set op | op in OpsOf(failures, signature) && op in blocked
  }

  /** Beyond the first two, every failure with a signature belongs to a different call that is blocked since. */
  ghost predicate CircuitHolds(counts: Counts, blocked: Blocked, failures: seq<Failing>) {
    forall s: string ::
      CountOf(failures, s) <= (if CountIn(counts, s) <= 2 then CountIn(counts, s)
                               else 2) + |BlockedOpsOf(failures, s, blocked)|
  }

  lemma MoreBlocked(failures: seq<Failing>, s: string, blocked: Blocked, more: Blocked)
    requires blocked.Keys <= more.Keys
    ensures |BlockedOpsOf(failures, s, blocked)| <= |BlockedOpsOf(failures, s, more)|
  {
    SubsetIsSmaller(BlockedOpsOf(failures, s, blocked), BlockedOpsOf(failures, s, more));
  }

  lemma {:induction false} SubsetIsSmaller(a: set<Operation>, b: set<Operation>)
    requires a <= b
    ensures |a| <= |b|
  {
    if a != {} {
      var x :| x in a;
      SubsetIsSmaller(a - {x}, b - {x});
    }
  }

  /** Counting a failure of a call outside the circuit, or blocking more calls, keeps the circuit sound. */
  lemma CircuitGrows(counts: Counts, blocked: Blocked, failures: seq<Failing>, counts': Counts, blocked': Blocked)
    requires CircuitHolds(counts, blocked, failures) && blocked.Keys <= blocked'.Keys
    requires forall s: string :: CountIn(counts, s) <= CountIn(counts', s)
    ensures CircuitHolds(counts', blocked', failures)
  {
    forall s: string
      ensures CountOf(failures, s) <= (if CountIn(counts', s) <= 2 then CountIn(counts', s)
                                       else 2) + |BlockedOpsOf(failures, s, blocked')|
    {
      MoreBlocked(failures, s, blocked, blocked');
    }
  }

  lemma OpsOfMore(failures: seq<Failing>, f: Failing, s: string)
    ensures OpsOf(failures + [f], s) == if f.signature == s then OpsOf(failures, s) + {f.op} else OpsOf(failures, s)
    ensures CountOf(failures + [f], s) == CountOf(failures, s) + if f.signature == s then 1 else 0
  {
  }

  /**
   A counted failure of an allowed, unblocked, non-mutating call: from the third of a family on, the call is blocked.
   */
  lemma CircuitStep(counts: Counts, blocked: Blocked, failures: seq<Failing>, f: Failing, blocked': Blocked)
    requires CircuitHolds(counts, blocked, failures) && f.op !in blocked && blocked.Keys <= blocked'.Keys
    requires CountIn(counts, f.signature) + 1 >= 3 ==> f.op in blocked'
    ensures CircuitHolds(counts[f.signature := CountIn(counts, f.signature) + 1], blocked', failures + [f])
  {
    var counts' := counts[f.signature := CountIn(counts, f.signature) + 1];
    var all := failures + [f];
    forall s: string
      ensures CountOf(all, s) <= (if CountIn(counts', s) <= 2 then CountIn(counts', s)
                                  else 2) + |BlockedOpsOf(all, s, blocked')|
    {
      OpsOfMore(failures, f, s);
      var before, after := BlockedOpsOf(failures, s, blocked), BlockedOpsOf(all, s, blocked');
      assert before <= after;
      SubsetIsSmaller(before, after);
      if s == f.signature && CountIn(counts, s) >= 2 {
        assert before + {f.op} <= after && f.op !in before;
        SubsetIsSmaller(before + {f.op}, after);
      }
    }
  }

  lemma CircuitClosed(counts: Counts)
    ensures CircuitHolds(counts, map[], [])
  {
  }

  /**
   The bound: between two successful state mutations, one failure family is met at most twice plus once for every
   different call.
   */
  lemma FailuresAreBounded(counts: Counts, blocked: Blocked, failures: seq<Failing>, s: string)
    requires CircuitHolds(counts, blocked, failures)
    ensures CountOf(failures, s) <= 2 + |OpsOf(failures, s)|
  {
    SubsetIsSmaller(BlockedOpsOf(failures, s, blocked), OpsOf(failures, s));
  }

  // ---- the bound over a whole run ----

  /** A failure the circuit counts: of an allowed call that does not mutate state. */
  predicate CountsAsFailure(p: Policy, e: CallEvent) {
    !IsStateMutation(p, e.op) && ((e.Executed? && e.outcome.isError) || (e.TurnedDown? && e.allowed && e.outcome.isError))
  }

  predicate ClosesTheCircuit(p: Policy, e: CallEvent) {
    Succeeded(e) && IsStateMutation(p, e.op)
  }

  function NextFailures(p: Policy, failures: seq<Failing>, e: CallEvent): seq<Failing> {
    if ClosesTheCircuit(p, e) then []
    else if CountsAsFailure(p, e) then failures + [Failing(e.op, p.diagnose(e.outcome.result).signature)]
    else failures
  }

  /** The counted failures since the last successful state mutation. */
  function FailingSince(p: Policy, log: Log): seq<Failing> {
    if log == [] then [] else NextFailures(p, FailingSince(p, log[..|log| - 1]), log[|log| - 1])
  }

  predicate BoundedFailures(failures: seq<Failing>, s: string) {
    CountOf(failures, s) <= 2 + |OpsOf(failures, s)|
  }

  /** At every moment of the run, each failure family was met at most twice plus once for every different call. */
  ghost predicate AlwaysBounded(p: Policy, log: Log) {
    forall k: nat, s: string | k <= |log| :: BoundedFailures(FailingSince(p, log[..k]), s)
  }

  lemma BoundedAtTheStart(p: Policy)
    ensures AlwaysBounded(p, [])
  {
  }

  /** As long as the circuit holds after every call, the failures stay bounded over the whole run. */
  lemma AlwaysBoundedStep(p: Policy, log: Log, e: CallEvent, counts: Counts, blocked: Blocked)
    requires AlwaysBounded(p, log) && CircuitHolds(counts, blocked, NextFailures(p, FailingSince(p, log), e))
    ensures FailingSince(p, log + [e]) == NextFailures(p, FailingSince(p, log), e)
    ensures AlwaysBounded(p, log + [e])
  {
    hide CircuitHolds, OpsOf, CountOf, NextFailures;
    var all := log + [e];
    Appended(log, e);
    forall k: nat, s: string | k <= |all|
      ensures BoundedFailures(FailingSince(p, all[..k]), s)
    {
      if k == |all| {
        assert all[..k] == all;
        FailuresAreBounded(counts, blocked, FailingSince(p, all), s);
      } else {
        assert all[..k] == log[..k];
      }
    }
  }

  // ---- the bound, read off the log ----

  /** The call changes state by its risk class, and is no check. */
  predicate IsMutatingCall(p: Policy, op: Operation) {
    && p.risk(op).mutation && op.tool != Test && op.tool != Lint
    && !(op.tool.CommandRunner? && p.commandChecks(op))
  }

  /** A call that was offered to the model and does not change state failed with a signature. */
  predicate FailedWith(p: Policy, e: CallEvent, s: string) {
    && (e.Executed? || (e.TurnedDown? && e.allowed)) && e.outcome.isError && !IsMutatingCall(p, e.op)
    && p.diagnose(e.outcome.result).signature == s
  }

  function TimesFailed(p: Policy, log: Log, s: string): nat {
    if log == [] then 0
    else TimesFailed(p, log[..|log| - 1], s) + if FailedWith(p, log[|log| - 1], s) then 1 else 0
  }

  /** The different calls that failed with the signature. */
  function CallsFailed(p: Policy, log: Log, s: string): set<Operation> {
    set k | 0 <= k < |log| && FailedWith(p, log[k], s) :: log[k].op
  }

  /** No state was changed by a successful call. */
  predicate NothingChanged(p: Policy, log: Log) {
    forall k | 0 <= k < |log| :: !(log[k].Executed? && !log[k].outcome.isError && IsMutatingCall(p, log[k].op))
  }

  lemma FailureInPlainTerms(p: Policy, e: CallEvent, s: string)
    ensures CountsAsFailure(p, e) ==> e.Executed? || e.TurnedDown?
    ensures CountsAsFailure(p, e) && p.diagnose(e.outcome.result).signature == s <==> FailedWith(p, e, s)
    ensures ClosesTheCircuit(p, e) <==> e.Executed? && !e.outcome.isError && IsMutatingCall(p, e.op)
  {
  }

  lemma {:induction false} SegmentFailures(p: Policy, before: Log, log: Log, s: string)
    requires FailingSince(p, before) == [] && NothingChanged(p, log)
    ensures CountOf(FailingSince(p, before + log), s) == TimesFailed(p, log, s)
    ensures OpsOf(FailingSince(p, before + log), s) == CallsFailed(p, log, s)
  {
    hide CountsAsFailure, ClosesTheCircuit, FailedWith, IsMutatingCall;
    if log == [] {
      assert before + log == before;
    } else {
      var front, e := log[..|log| - 1], log[|log| - 1];
      assert before + log == before + front + [e] && log == front + [e];
      SegmentFailures(p, before, front, s);
      Appended(before + front, e);
      assert !ClosesTheCircuit(p, e) by { FailureInPlainTerms(p, log[|log| - 1], s); }
      FailureInPlainTerms(p, e, s);
      OneMoreCallFailed(p, front, e, s);
      var failing := FailingSince(p, before + front);
      if CountsAsFailure(p, e) { OpsOfMore(failing, Failing(e.op, p.diagnose(e.outcome.result).signature), s); }
    }
  }

  lemma OneMoreCallFailed(p: Policy, front: Log, e: CallEvent, s: string)
    ensures CallsFailed(p, front + [e], s) == CallsFailed(p, front, s) + if FailedWith(p, e, s) then {e.op} else {}
  {
    hide FailedWith;
    var all := front + [e];
    assert all[|front|] == e && forall k | 0 <= k < |front| :: all[k] == front[k];
    forall op | op in CallsFailed(p, front, s)
      ensures op in CallsFailed(p, all, s)
    {
      var k :| 0 <= k < |front| && FailedWith(p, front[k], s) && front[k].op == op;
      assert FailedWith(p, all[k], s) && all[k].op == op;
    }
    if FailedWith(p, e, s) { assert all[|front|].op in CallsFailed(p, all, s); }
  }

  /**
   The bound in plain terms: in any stretch of the log that begins a run or follows a successful state mutation, and in
   which no state changes, one failure family is met at most twice plus once for every different call.
   */
  lemma FailuresInTheLogAreBounded(p: Policy, log: Log, a: nat, b: nat, s: string)
    requires AlwaysBounded(p, log) && a <= b <= |log| && NothingChanged(p, log[a..b])
    requires a == 0 || ClosesTheCircuit(p, log[a - 1])
    ensures TimesFailed(p, log[a..b], s) <= 2 + |CallsFailed(p, log[a..b], s)|
  {
    hide CountsAsFailure, CountOf, OpsOf, TimesFailed, CallsFailed, NothingChanged;
    if a > 0 { assert log[..a] == log[..a - 1] + [log[a - 1]]; }
    SegmentFailures(p, log[..a], log[a..b], s);
    assert log[..a] + log[a..b] == log[..b];
    assert BoundedFailures(FailingSince(p, log[..b]), s);
  }
}
