/**
 The agent run loop (aicoder/agent_runtime.py, NativeLightRuntime._run_impl). Model replies, tool outcomes, operator
 stops and classifiers are arbitrary inputs; prompts, events and message texts are not modelled.
 */
module AgentRuntime {
  import opened Wrappers
  import opened Tools
  import opened RunHistory
  import opened ResultCache
  import opened FailureTracking
  import opened LoopGuard
  import opened AgentPlan
  import opened PlanProgress
  import opened ResumedRuns
  import opened CallProcessing
  import opened RunProtocol

  datatype Step<T> = Continue(value: T) | End(result: RunResult)

  /** The plan status a result leaves behind: only a yield leaves the plan running. */
  function StatusFor(r: RunResult): PlanStatus {
    match r.status
    case RunCompleted => Completed
    case RunFailed => Failed
    case RunPaused => if r.exit.ByYield? then Running else Paused
  }

  /** The cache is bounded, and in a stable world it and every reuse so far are faithful. */
  ghost predicate CacheSound(p: Policy, run: Runner, world: World, cache: Cache, log: Log) {
    Bounded(cache) && (StableWorld(p, run) ==> Faithful(run, world, cache) && ReusesAreFaithful(run, log))
  }

  ghost predicate PlanSound(p: Policy, log: Log, steps: seq<PlanStep>, mutation: bool, verification: bool) {
    && Sound(steps) && OnTheSafeSide(steps, mutation, verification)
    && (NoRecallCounted(p, log) ==> SameProof(steps, verification))
  }

  lemma CacheAfterReuse(p: Policy, run: Runner, world: World, cache: Cache, log: Log, op: Operation, result: string)
    requires CacheSound(p, run, world, cache, log) && Lookup(cache, op) == Some(result)
    ensures CacheSound(p, run, world, cache, log + [Reused(op, result, world)])
  {
  }

  lemma CacheAfterOther(p: Policy, run: Runner, world: World, cache: Cache, log: Log, e: CallEvent)
    requires CacheSound(p, run, world, cache, log) && !e.Reused?
    ensures CacheSound(p, run, world, cache, log + [e])
  {
  }

  lemma CacheAfterExecution(p: Policy, run: Runner, world: World, cache: Cache, log: Log, op: Operation)
    requires CacheSound(p, run, world, cache, log)
    ensures var x := run(op, world);
            CacheSound(p, run, x.world, CacheAfter(p, cache, op, x.outcome), log + [Executed(op, x.outcome)])
  {
    var x := run(op, world);
    hide StableWorld, ReusesAreFaithful, Put, IsStateMutation, Lookup;
    PutKeepsTheCacheSound(run, world, cache, op, x.outcome.result);
    if StableWorld(p, run) {
      ReuseStep(run, log, Executed(op, x.outcome));
      StableStep(p, run, op, world);
    }
  }

  lemma StableStep(p: Policy, run: Runner, op: Operation, world: World)
    requires StableWorld(p, run)
    ensures run(op, world).outcome.isError || !IsStateMutation(p, op) ==> run(op, world).world == world
  {
  }

  /** A call that did not succeed, or was answered by the host, moves no flag. */
  lemma QuietEvent(p: Policy, f: Flags, e: CallEvent)
    requires !Succeeded(e) && !e.Recalled?
    ensures NextFlags(p, f, e) == f && !IsFreshInspection(e) && !IsEffect(p, e)
    ensures !e.Reused? ==> forall cfg, n :: InspectionsAfter(cfg, p, n, f, e) == n
  {
  }

  lemma PlanAfterQuiet(p: Policy, log: Log, steps: seq<PlanStep>, mutation: bool, verification: bool, e: CallEvent)
    requires PlanSound(p, log, steps, mutation, verification) && !e.Recalled?
    ensures PlanSound(p, log + [e], steps, mutation, verification)
  {
    hide NoRecallCounted;
    NoRecallStep(p, log, e);
  }

  lemma PlanAfterExecution(p: Policy, log: Log, steps: seq<PlanStep>, f: Flags, op: Operation, outcome: Outcome)
    requires PlanSound(p, log, steps, f.mutation, f.verification) && (f.verification ==> f.mutation)
    ensures var e := Executed(op, outcome);
            var f' := NextFlags(p, f, e);
            PlanSound(p, log + [e], Recorded(p, steps, op, outcome, f.mutation), f'.mutation, f'.verification)
  {
    hide NoRecallCounted, Recorded, Sound, OnTheSafeSide, SameProof, SelfVerifies, IsBehaviorCheck;
    NoRecallStep(p, log, Executed(op, outcome));
    ExecutedCallKeepsThePlan(p, steps, op, outcome, f.mutation, f.verification);
  }

  lemma PlanAfterRecall(p: Policy, log: Log, steps: seq<PlanStep>, f: Flags, op: Operation, result: string)
    requires PlanSound(p, log, steps, f.mutation, f.verification) && (f.verification ==> f.mutation)
    requires op.tool.FileRead?
    ensures var f' := NextFlags(p, f, Recalled(op));
            PlanSound(p, log + [Recalled(op)], Recorded(p, steps, op, Outcome(result, false), f.mutation),
                      f'.mutation, f'.verification)
  {
    hide NoRecallCounted, Recorded, Sound, OnTheSafeSide, SameProof, SelfVerifies, IsBehaviorCheck;
    NoRecallStep(p, log, Recalled(op));
    RecalledReadKeepsThePlan(p, steps, op, result, f.mutation, f.verification);
  }

  lemma PlanAfterFinish(p: Policy, log: Log, steps: seq<PlanStep>, mutation: bool, verification: bool)
    requires PlanSound(p, log, steps, mutation, verification) && (verification ==> mutation)
    ensures Sound(steps) && PlanSound(p, log, Finished(steps, mutation, verification), mutation, verification)
    ensures Sound(Finished(steps, mutation, verification))
  {
  }

  lemma PlanIsSound(p: Policy, log: Log, steps: seq<PlanStep>, mutation: bool, verification: bool)
    requires PlanSound(p, log, steps, mutation, verification)
    ensures Sound(steps)
  {
  }

  /** The event of a call that ran or was turned down. */
  predicate IsOutcomeOf(e: CallEvent, op: Operation, outcome: Outcome) {
    e == Executed(op, outcome) || (e.TurnedDown? && e.op == op && e.outcome == outcome && outcome.isError)
  }

  class AgentRun {
    const cfg: Config
    const policy: Policy
    const run: Runner
    const plan: Plan?
    const guard: AgentLoopGuard
    const tracker: FailureTracker
    const resumed: bool
    /** What a resumed plan knew at the start. */
    const mutationAtStart: bool
    const verificationAtStart: bool

    var mutationSeen: bool
    var verificationSeen: bool
    var testVerificationSeen: bool
    var freshInspection: bool
    var toolWasCalled: bool
    var toolNudgeSent: bool
    var verificationNudgeSent: bool
    var implementationNudgeSent: bool
    var noChangeNudgeSent: bool
    var finalRepairSent: bool
    var auditSent: bool
    var inspections: nat
    var cache: Cache
    var blocked: Blocked
    /** The file ranges whose digest was recorded after a read of this run. */
    var recordedReads: set<string>
    /** Whether a continuation checkpoint of the plan exists. */
    var checkpoint: bool
    var checkpointCleared: bool

    /** What the tools act on; the loop sees it only through their outcomes. */
    var world: World
    ghost var calls: Log
    ghost var failures: seq<Failing>
    ghost var batches: seq<BatchEvent>
    ghost var guardRuns: seq<bool>
    ghost var modelTurns: nat
    /** The host asked for a follow-up turn: a repair, a verification or an audit. */
    ghost var followUpAsked: bool

    ghost predicate CallsOk()
      reads this`calls, this`mutationSeen, this`verificationSeen, this`testVerificationSeen, this`freshInspection
    {
      RunMeans(policy, mutationAtStart, verificationAtStart, resumed, calls,
               Flags(mutationSeen, verificationSeen, testVerificationSeen), freshInspection)
    }

    ghost predicate CacheOk()
      reads this`world, this`cache, this`calls
    {
      CacheSound(policy, run, world, cache, calls)
    }

    ghost predicate CircuitOk()
      reads this`blocked, this`failures, tracker
    {
      CircuitHolds(tracker.counts, blocked, failures)
    }

    ghost predicate FailuresOk()
      reads this`calls, this`failures
    {
      failures == FailingSince(policy, calls) && AlwaysBounded(policy, calls)
    }

    ghost predicate GuardOk()
      reads this`batches, guard
    {
      guard.Valid() && Remembers(policy, guard.lastCallBatch, batches) && NeverRepeated(policy, batches)
    }

    ghost predicate PlanOk()
      reads this`calls, this`mutationSeen, this`verificationSeen, plan
    {
      plan != null ==>
        && plan.Valid() && plan.stored == plan.Data()
        && PlanSound(policy, calls, plan.steps, mutationSeen, verificationSeen)
    }

    /** A follow-up request is remembered in a flag that may be withdrawn, so it is also logged. */
    ghost predicate FollowUpOk()
      reads this`finalRepairSent, this`verificationNudgeSent, this`auditSent, this`followUpAsked
    {
      FollowUpSent() ==> followUpAsked
    }

    ghost predicate Valid()
      reads this, plan, guard, tracker
    {
      CallsOk() && CacheOk() && CircuitOk() && FailuresOk() && GuardOk() && PlanOk() && FollowUpOk()
    }

    /** The run goes on: its plan is running and its completion guard was not asked. */
    ghost predicate Open()
      reads this`guardRuns, plan
    {
      guardRuns == [] && (plan != null ==> plan.status == PlanStatus.Running)
    }

    constructor (cfg: Config, policy: Policy, run: Runner, plan: Plan?, resumed: bool, usedTools: bool,
                 checkpoint: bool, world: World)
      requires resumed ==> plan != null
      requires plan != null ==> plan.Valid() && plan.stored == plan.Data() && plan.status == Running
      requires plan != null && !resumed ==> ProgressFlags(plan.steps) == (false, false)
      ensures Valid() && Open() && fresh(guard) && fresh(tracker)
      ensures this.cfg == cfg && this.policy == policy && this.run == run && this.plan == plan
      ensures this.resumed == resumed
      ensures calls == [] && failures == [] && batches == [] && modelTurns == 0 && !followUpAsked && !FollowUpSent()
      ensures RunFlags() == Flags(mutationAtStart, verificationAtStart, false) && freshInspection == !resumed
      ensures Settings() == Setup(cfg, policy, run, resumed, 12)
      ensures State() == Loop(
                           Situation([], world, [], map[], map[], Flags(mutationAtStart, verificationAtStart, false),
                                     !resumed, 0, {}, Requests(false, false, false, usedTools, false, false)),
                           Memory([], 0, [], []), usedTools)
      ensures this.checkpoint == checkpoint
      ensures (mutationAtStart, verificationAtStart) == if plan != null && resumed then ProgressFlags(plan.steps)
                                                        else (false, false)
    {
      this.cfg, this.policy, this.run, this.plan, this.resumed := cfg, policy, run, plan, resumed;
      guard := new AgentLoopGuard(12);
      tracker := new FailureTracker();
      var flags := if plan != null && resumed then ProgressFlags(plan.steps) else (false, false);
      mutationAtStart, verificationAtStart := flags.0, flags.1;
      mutationSeen, verificationSeen, testVerificationSeen := flags.0, flags.1, false;
      freshInspection := !resumed;
      toolWasCalled, toolNudgeSent := usedTools, usedTools;
      verificationNudgeSent, implementationNudgeSent, noChangeNudgeSent := false, false, false;
      finalRepairSent, auditSent, inspections := false, false, 0;
      cache, blocked, recordedReads := [], map[], {};
      this.checkpoint, checkpointCleared := checkpoint, false;
      this.world := world;
      calls, failures, batches, guardRuns, modelTurns, followUpAsked := [], [], [], [], 0, false;
      new;
      RunMeansAtTheStart(policy, flags.0, flags.1, resumed);
      BoundedAtTheStart(policy);
      CircuitClosed(tracker.counts);
    }

    predicate FollowUpSent()
      reads this`finalRepairSent, this`verificationNudgeSent, this`auditSent
    {
      finalRepairSent || verificationNudgeSent || auditSent
    }

    /** What a run that ends completed has met, in terms of its flags. */
    ghost predicate Earned(exit: Exit)
      requires IsCompletion(exit)
      reads this`mutationSeen, this`verificationSeen, this`testVerificationSeen, this`toolWasCalled, this`auditSent
    {
      && (cfg.enforceVerification && mutationSeen ==> verificationSeen && (cfg.requireTest ==> testVerificationSeen))
      && (cfg.requireMutation && !mutationSeen && !exit.ByDone? ==> exit.noChange)
      && (mutationSeen && toolWasCalled && cfg.needsAudit && (cfg.enforceVerification || exit.ByDone?) ==> auditSent)
    }

    /** The plan, the guard and the checkpoint agree with the result. */
    ghost predicate Ended(r: RunResult)
      reads this, plan
    {
      && (plan != null ==> plan.status == StatusFor(r))
      && guardRuns == (if cfg.hasGuard && r.status.RunCompleted? then [true]
                       else if r.exit.ByGuard? then [false] else [])
      && (r.exit.ByGuard? ==> r.status.RunFailed?)
      && (r.status.RunCompleted? ==> IsCompletion(r.exit) && Earned(r.exit) && (checkpointCleared ==> !checkpoint))
    }

    /** `_save_journal`: best effort, and never for a completed plan. */
    method SaveJournal()
      requires PlanOk()
      modifies this`checkpoint, plan
      ensures PlanOk() && (plan != null ==> plan.steps == old(plan.steps) && plan.status == old(plan.status))
      ensures plan == null || plan.status == Completed ==> checkpoint == old(checkpoint)
      ensures old(checkpoint) ==> checkpoint
    {
      hide PlanSound, Sound;
      if plan == null || plan.status == Completed { return; }
      PlanIsSound(policy, calls, plan.steps, mutationSeen, verificationSeen);
      var written: bool := *;
      if written { checkpoint := true; }
      plan.Save();
    }

    /** `_pause_plan` or `_fail_plan`, then the checkpoint. */
    method Close(status: PlanStatus)
      requires Valid() && status != Completed
      modifies this`checkpoint, plan
      ensures Valid() && (plan != null ==> plan.status == status)
    {
      hide CallsOk, CacheOk, CircuitOk, FailuresOk, GuardOk, FollowUpOk, PlanSound, Sound;
      if plan != null {
        PlanIsSound(policy, calls, plan.steps, mutationSeen, verificationSeen);
        plan.status := status;
        plan.Save();
      }
      SaveJournal();
    }

    method Pause() returns (r: RunResult)
      requires Valid() && Open()
      modifies this`checkpoint, plan
      ensures Valid() && Ended(r) && r == RunResult(RunPaused, ByPause)
    {
      hide CallsOk, CacheOk, CircuitOk, FailuresOk, GuardOk, FollowUpOk, PlanOk;
      Close(Paused);
      return RunResult(RunPaused, ByPause);
    }

    method Fail() returns (r: RunResult)
      requires Valid() && Open()
      modifies this`checkpoint, plan
      ensures Valid() && Ended(r) && r == RunResult(RunFailed, ByModelFailure)
    {
      hide CallsOk, CacheOk, CircuitOk, FailuresOk, GuardOk, FollowUpOk, PlanOk;
      Close(Failed);
      return RunResult(RunFailed, ByModelFailure);
    }

    /** `_complete_plan`, which also clears the checkpoint. */
    method CompletePlan()
      requires Valid() && (plan != null ==> plan.status == Running)
      modifies this`checkpoint, this`checkpointCleared, plan
      ensures Valid() && (plan != null ==> plan.status == Completed)
      ensures checkpointCleared ==> !checkpoint
      ensures plan != null ==> plan.steps == Finished(old(plan.steps), mutationSeen, verificationSeen)
    {
      hide CircuitHolds, RunMeans, CacheSound, Remembers, NeverRepeated, PlanSound, Finished, Sound, Shaped;
      if plan == null {
        checkpointCleared := false;
        return;
      }
      FlagsInOrder(policy, mutationAtStart, verificationAtStart, resumed, calls, RunFlags(), freshInspection);
      PlanAfterFinish(policy, calls, plan.steps, mutationSeen, verificationSeen);
      FinishPlan();
      ClearJournal();
    }

    /** `_clear_journal`: best effort. */
    method ClearJournal()
      modifies this`checkpoint, this`checkpointCleared
      ensures checkpointCleared ==> !checkpoint
    {
      checkpointCleared := *;
      if checkpointCleared { checkpoint := false; }
    }

    /** Mark the plan completed and store it. */
    method FinishPlan()
      requires plan != null && plan.Valid() && Sound(Finished(plan.steps, mutationSeen, verificationSeen))
      modifies plan
      ensures plan.Valid() && plan.stored == plan.Data() && plan.status == Completed
      ensures plan.steps == Finished(old(plan.steps), mutationSeen, verificationSeen)
    {
      hide Sound, Finished;
      plan.status := Completed;
      FinishSteps();
      plan.Save();
    }

    /** Close the steps of a completed plan. */
    method FinishSteps()
      requires plan != null && Sound(plan.steps)
      modifies plan`steps
      ensures plan.steps == Finished(old(plan.steps), mutationSeen, verificationSeen)
    {
      WithStatusOfShaped(plan.steps, Inspect, Done);
      if !mutationSeen {
        plan.SetStep(Inspect, Done);
        WithStatusOfShaped(plan.steps, Implement, Skipped);
        plan.SetStep(Implement, Skipped);
        WithStatusOfShaped(plan.steps, Verify, Skipped);
        plan.SetStep(Verify, Skipped);
      } else if !verificationSeen && plan.steps[2].status != Done {
        WithStatusOfShaped(plan.steps, Verify, Skipped);
        plan.SetStep(Verify, Skipped);
      }
    }

    /** `_guard_completion` and completion: the guard is asked once and decides between completed and failed. */
    method Complete(exit: Exit, guardAccepts: bool) returns (r: RunResult)
      requires Valid() && Open() && IsCompletion(exit) && Earned(exit)
      modifies this`checkpoint, this`checkpointCleared, this`guardRuns, plan
      ensures Valid() && Ended(r)
      ensures r == if cfg.hasGuard && !guardAccepts then RunResult(RunFailed, ByGuard)
                   else RunResult(RunCompleted, exit)
    {
      hide CallsOk, CacheOk, CircuitOk, FailuresOk, GuardOk, PlanOk, FollowUpOk, Earned;
      if cfg.hasGuard {
        guardRuns := guardRuns + [guardAccepts];
        if !guardAccepts {
          Close(Failed);
          return RunResult(RunFailed, ByGuard);
        }
      }
      CompletePlan();
      return RunResult(RunCompleted, exit);
    }

    /** `_record_tool_progress`. */
    method RecordToolProgress(op: Operation, outcome: Outcome) returns (mutation: bool, verified: bool)
      requires plan != null ==> plan.Valid() && Sound(Recorded(policy, plan.steps, op, outcome, mutationSeen))
      modifies plan
      ensures plan != null ==>
                plan.Valid() && plan.stored == plan.Data()
                && plan.steps == Recorded(policy, old(plan.steps), op, outcome, mutationSeen)
                && plan.status == old(plan.status) && plan.iteration == old(plan.iteration)
      ensures mutation == (mutationSeen || (!outcome.isError && policy.effect(op) && !IsBehaviorCheck(policy, op)))
      ensures verified == (!outcome.isError && if IsBehaviorCheck(policy, op) then mutationSeen
                                               else policy.effect(op) && SelfVerifies(policy, op, outcome.result))
    {
      mutation, verified := mutationSeen, false;
      if outcome.isError {
        if plan != null { plan.Save(); }
        return;
      }
      var effect := policy.effect(op);
      var check := IsBehaviorCheck(policy, op);
      if check {
        verified := mutationSeen;
      } else if effect {
        mutation := true;
        verified := SelfVerifies(policy, op, outcome.result);
      }
      if plan == null { return; }
      hide SelfVerifies, IsBehaviorCheck;
      ghost var before := plan.steps;
      if check && mutationSeen {
        plan.SetStep(Inspect, Done);
        WithStatusOfShaped(before, Inspect, Done);
        WithStatusOfShaped(plan.steps, Verify, Done);
        plan.SetStep(Verify, Done);
      } else if effect {
        plan.SetStep(Inspect, Done);
        WithStatusOfShaped(before, Inspect, Done);
        WithStatusOfShaped(plan.steps, Implement, Done);
        plan.SetStep(Implement, Done);
        if verified {
          WithStatusOfShaped(plan.steps, Verify, Done);
          plan.SetStep(Verify, Done);
        } else {
          WithStatusOfShaped(plan.steps, Verify, InProgress);
          plan.SetStep(Verify, InProgress);
        }
      } else if check || IsInspection(op.tool) {
        WithStatusOfShaped(before, Inspect, Done);
        plan.SetStep(Inspect, Done);
      } else if plan.steps[0].status == InProgress {
        WithStatusOfShaped(before, Inspect, Done);
        plan.SetStep(Inspect, Done);
        WithStatusOfShaped(plan.steps, Implement, InProgress);
        plan.SetStep(Implement, InProgress);
      }
      plan.Save();
    }

    /** Log a call that moves no flag: one that failed, was not run, or was answered from the cache. */
    ghost method Note(e: CallEvent)
      requires CallsOk() && PlanOk() && CacheSound(policy, run, world, cache, calls + [e])
      requires !Succeeded(e) && !e.Recalled?
      requires resumed && e.Executed? && IsRisky(policy, e.op) ==> freshInspection
      modifies this`calls
      ensures CallsOk() && CacheOk() && PlanOk() && calls == old(calls) + [e]
    {
      hide RunMeans, CacheSound, PlanSound, NextFlags, IsRisky;
      ghost var f := Flags(mutationSeen, verificationSeen, testVerificationSeen);
      QuietEvent(policy, f, e);
      RunMeansStep(policy, mutationAtStart, verificationAtStart, resumed, calls, f, freshInspection, e);
      if plan != null { PlanAfterQuiet(policy, calls, plan.steps, mutationSeen, verificationSeen, e); }
      calls := calls + [e];
    }

    /** A call that is no failure and closes no circuit leaves the bound as it is. */
    lemma FailuresFollow(e: CallEvent)
      requires CircuitOk() && FailuresOk()
      requires NextFailures(policy, failures, e) == failures
      ensures failures == FailingSince(policy, calls + [e]) && AlwaysBounded(policy, calls + [e])
    {
      hide CircuitHolds, AlwaysBounded, NextFailures, FailingSince;
      AlwaysBoundedStep(policy, calls, e, tracker.counts, blocked);
    }

    /** Log a call the host did not run. */
    ghost method NoteNotRun(op: Operation)
      requires CallsOk() && PlanOk() && CacheOk() && CircuitOk() && FailuresOk()
      modifies this`calls
      ensures CallsOk() && CacheOk() && PlanOk() && FailuresOk() && Now() == Moved(Settings(), old(Now()), NotRun(op))
    {
      hide CallsOk, PlanOk, CacheSound, CircuitHolds, AlwaysBounded, FailingSince;
      CacheAfterOther(policy, run, world, cache, calls, NotRun(op));
      FailuresFollow(NotRun(op));
      Note(NotRun(op));
    }

    /**
     Run a tool: the world moves on, a successful state mutation empties the cache and closes the failure circuit, and a
     successful read may be recorded.
     */
    method Dispatch(op: Operation, evidenceRecorded: bool) returns (outcome: Outcome)
      requires CacheOk() && CircuitOk()
      modifies this`world, this`cache, this`blocked, this`failures, this`recordedReads
      ensures Execution(outcome, world) == run(op, old(world))
      ensures cache == CacheAfter(policy, old(cache), op, outcome)
      ensures CacheSound(policy, run, world, cache, calls + [Executed(op, outcome)])
      ensures CircuitOk()
      ensures var e := Executed(op, outcome);
              && (if ClosesTheCircuit(policy, e) then blocked == map[] && failures == []
                  else blocked == old(blocked) && failures == old(failures))
              && BlockedAfter(policy, blocked, tracker.counts, e)
                 == BlockedAfter(policy, old(blocked), tracker.counts, e)
              && recordedReads == RecordedAfter(Settings(), old(recordedReads), e, evidenceRecorded)
    {
      hide CacheSound, CircuitHolds, Put, IsStateMutation;
      CacheAfterExecution(policy, run, world, cache, calls, op);
      CircuitClosed(tracker.counts);
      var x := run(op, world);
      world, outcome := x.world, x.outcome;
      if !outcome.isError && IsStateMutation(policy, op) {
        cache, blocked, failures := [], map[], [];
      } else if !outcome.isError {
        cache := Put(cache, op, outcome.result);
      }
      if !outcome.isError && op.tool.FileRead? && cfg.hasEvidence && evidenceRecorded {
        recordedReads := recordedReads + {policy.readKey(op)};
      }
    }

    /** Count a failure and open the circuit for its call; tells whether authoritative checks keep failing alike. */
    method TrackFailure(op: Operation, outcome: Outcome, ghost e: CallEvent) returns (stalled: bool)
      requires CircuitOk() && IsOutcomeOf(e, op, outcome)
      requires CountsAsFailure(policy, e) ==> op !in blocked
      requires ClosesTheCircuit(policy, e) ==> failures == [] && blocked == map[]
      modifies this`blocked, this`failures, tracker
      ensures CircuitOk() && failures == NextFailures(policy, old(failures), e)
      ensures tracker.counts == CountsAfter(policy, old(tracker.counts), e)
      ensures blocked == BlockedAfter(policy, old(blocked), old(tracker.counts), e)
      ensures stalled <==> ChecksStall(policy, RunFlags(), old(tracker.counts), e)
    {
      hide CircuitHolds, IsBehaviorCheck, CountsAfter, BlockedAfter, ChecksStall;
      ghost var counts, circuit := tracker.counts, blocked;
      AfterFailure(policy, RunFlags(), blocked, counts, e);
      stalled := CountFailure(op, outcome);
      if !outcome.isError {
      } else if CountsAsFailure(policy, e) {
        ghost var f := Failing(op, SignatureOf(policy, e));
        CircuitStep(counts, circuit, failures, f, blocked);
        failures := failures + [f];
      } else {
        CircuitGrows(counts, circuit, failures, tracker.counts, blocked);
      }
    }

    method CountFailure(op: Operation, outcome: Outcome) returns (stalled: bool)
      modifies this`blocked, tracker
      ensures !outcome.isError ==> !stalled && blocked == old(blocked) && tracker.counts == old(tracker.counts)
      ensures outcome.isError ==>
                var d := policy.diagnose(outcome.result);
                var count := CountIn(old(tracker.counts), d.signature) + 1;
                && tracker.counts == old(tracker.counts)[d.signature := count]
                && blocked == (if StopsRetrying(policy, op, outcome, count) then old(blocked)[op := d.signature]
                               else old(blocked))
                && (stalled <==> mutationSeen && IsBehaviorCheck(policy, op) && count >= VERIFICATION_STALL_COUNT)
    {
      hide IsBehaviorCheck;
      var failure := tracker.Observe(policy.diagnose, outcome.result, outcome.isError);
      if failure.None? { return false; }
      var f := failure.value;
      var stateMutation := policy.risk(op).mutation && !IsBehaviorCheck(policy, op);
      var timedOut := op.tool.CommandRunner? && policy.saysHardTimeout(outcome.result);
      if timedOut || (f.count >= 3 && !f.retryable && !stateMutation) {
        blocked := blocked[op := f.signature];
      }
      stalled := mutationSeen && IsBehaviorCheck(policy, op) && f.count >= VERIFICATION_STALL_COUNT && !f.retryable;
    }

    /** What stays the same during the run. */
    function Settings(): Setup {
      Setup(cfg, policy, run, resumed, guard.window)
    }

    /** The requests that were sent. */
    ghost function Sent(): Requests
      reads this`finalRepairSent, this`noChangeNudgeSent, this`verificationNudgeSent, this`toolNudgeSent
      reads this`auditSent, this`implementationNudgeSent
    {
      Requests(finalRepairSent, noChangeNudgeSent, verificationNudgeSent, toolNudgeSent, auditSent,
               implementationNudgeSent)
    }

    /** Everything the answer to a call depends on or moves. */
    ghost function Now(): Situation
      reads this`calls, this`world, this`cache, this`blocked, this`mutationSeen, this`verificationSeen
      reads this`testVerificationSeen, this`freshInspection, this`inspections, this`recordedReads
      reads this`finalRepairSent, this`noChangeNudgeSent, this`verificationNudgeSent, this`toolNudgeSent
      reads this`auditSent, this`implementationNudgeSent, tracker
    {
      Situation(calls, world, cache, blocked, tracker.counts, RunFlags(), freshInspection, inspections, recordedReads,
                Sent())
    }

    ghost function RunFlags(): Flags
      reads this`mutationSeen, this`verificationSeen, this`testVerificationSeen
    {
      Flags(mutationSeen, verificationSeen, testVerificationSeen)
    }

    /** Take over what a successful call showed. */
    method MoveFlags(op: Operation, result: string, mutation: bool, verified: bool)
      requires mutation == (mutationSeen || (policy.effect(op) && !IsBehaviorCheck(policy, op)))
      requires verified == if IsBehaviorCheck(policy, op) then mutationSeen
                           else policy.effect(op) && SelfVerifies(policy, op, result)
      modifies this`mutationSeen, this`verificationSeen, this`testVerificationSeen, this`freshInspection
      modifies this`verificationNudgeSent, this`inspections, this`calls
      ensures calls == old(calls) + [Executed(op, Outcome(result, false))]
      ensures RunFlags() == NextFlags(policy, old(RunFlags()), Executed(op, Outcome(result, false)))
      ensures freshInspection == (old(freshInspection) || IsFreshInspection(Executed(op, Outcome(result, false))))
      ensures verificationNudgeSent <==>
              old(verificationNudgeSent) && !(policy.effect(op) && !IsBehaviorCheck(policy, op))
      ensures inspections == InspectionsAfter(cfg, policy, old(inspections), old(RunFlags()),
                                              Executed(op, Outcome(result, false)))
    {
      hide SelfVerifies, IsBehaviorCheck;
      TestsAreChecks(policy, op);
      if IsInspection(op.tool) { freshInspection := true; }
      var mutationBefore := mutationSeen;
      mutationSeen := mutation;
      if policy.effect(op) && !IsBehaviorCheck(policy, op) {
        verificationSeen, testVerificationSeen, verificationNudgeSent := verified, false, false;
      } else {
        verificationSeen := verificationSeen || verified;
      }
      if op.tool.Test? && verified && mutationBefore { testVerificationSeen := true; }
      if mutationSeen && !mutationBefore {
        inspections := 0;
      } else if cfg.requireMutation && !mutationSeen && IsInspection(op.tool) {
        inspections := inspections + 1;
      }
      calls := calls + [Executed(op, Outcome(result, false))];
    }

    /** The plan keeps up with a call that succeeded or was recalled; the log and the flags move on after it. */
    method RecordInPlan(op: Operation, result: string, ghost e: CallEvent) returns (mutation: bool, verified: bool)
      requires PlanOk() && (verificationSeen ==> mutationSeen)
      requires e == Executed(op, Outcome(result, false)) || (e == Recalled(op) && op.tool.FileRead?)
      modifies plan
      ensures plan != null ==>
                var f := NextFlags(policy, RunFlags(), e);
                && plan.Valid() && plan.stored == plan.Data() && plan.status == old(plan.status)
                && PlanSound(policy, calls + [e], plan.steps, f.mutation, f.verification)
      ensures mutation == (mutationSeen || (policy.effect(op) && !IsBehaviorCheck(policy, op)))
      ensures verified == if IsBehaviorCheck(policy, op) then mutationSeen
                          else policy.effect(op) && SelfVerifies(policy, op, result)
    {
      hide PlanSound, SelfVerifies, IsBehaviorCheck, Recorded, Sound, Shaped, NextFlags;
      var outcome := Outcome(result, false);
      if plan != null {
        ghost var f := RunFlags();
        PlanIsSound(policy, calls, plan.steps, mutationSeen, verificationSeen);
        if e.Executed? { PlanAfterExecution(policy, calls, plan.steps, f, op, outcome); }
        else { PlanAfterRecall(policy, calls, plan.steps, f, op, result); }
        ghost var f' := NextFlags(policy, f, e);
        PlanIsSound(policy, calls + [e], Recorded(policy, plan.steps, op, outcome, mutationSeen), f'.mutation,
                    f'.verification);
      }
      mutation, verified := RecordToolProgress(op, outcome);
    }

    /** Record an executed, successful call in the plan and in the flags. */
    method Progress(op: Operation, result: string)
      requires CallsOk() && PlanOk() && FollowUpOk()
      requires CacheSound(policy, run, world, cache, calls + [Executed(op, Outcome(result, false))])
      requires resumed && IsRisky(policy, op) ==> freshInspection
      modifies this`calls, this`mutationSeen, this`verificationSeen, this`testVerificationSeen, this`freshInspection
      modifies this`verificationNudgeSent, this`inspections, plan
      ensures CallsOk() && CacheOk() && PlanOk() && FollowUpOk()
      ensures calls == old(calls) + [Executed(op, Outcome(result, false))]
      ensures plan != null ==> plan.status == old(plan.status)
      ensures var e := Executed(op, Outcome(result, false));
              && RunFlags() == NextFlags(policy, old(RunFlags()), e)
              && freshInspection == (old(freshInspection) || IsFreshInspection(e))
              && verificationNudgeSent == (old(verificationNudgeSent) && !IsEffect(policy, e))
              && inspections == InspectionsAfter(cfg, policy, old(inspections), old(RunFlags()), e)
    {
      hide RunMeans, CacheSound, PlanSound, SelfVerifies, IsBehaviorCheck, IsRisky, NextFlags, Sound;
      hide IsFreshInspection, IsInspection, InspectionsAfter;
      ghost var e := Executed(op, Outcome(result, false));
      ghost var f := RunFlags();
      RunMeansStep(policy, mutationAtStart, verificationAtStart, resumed, calls, f, freshInspection, e);
      var mutation, verified := RecordInPlan(op, result, e);
      MoveFlags(op, result, mutation, verified);
    }

    /** A file range read before in this run and unchanged since is recalled instead of read again. */
    method Recall(op: Operation, reply: string)
      requires CallsOk() && PlanOk() && CacheOk() && CircuitOk() && FailuresOk() && op.tool.FileRead?
      modifies this`calls, this`mutationSeen, this`verificationSeen, plan
      ensures CallsOk() && CacheOk() && PlanOk() && FailuresOk() && Now() == Moved(Settings(), old(Now()), Recalled(op))
      ensures plan != null ==> plan.status == old(plan.status)
    {
      hide CallsOk, CacheOk, PlanOk, CircuitOk, FailuresOk, NextFlags, Sent, RunFlags, IsEffect;
      RecalledQuietly(op);
      RecordRecall(op, reply);
    }

    /** Apart from the flags, a recalled read moves nothing. */
    lemma RecalledQuietly(op: Operation)
      ensures var now := Now();
              Moved(Settings(), now, Recalled(op)) ==
              now.(calls := now.calls + [Recalled(op)], flags := NextFlags(policy, now.flags, Recalled(op)))
    {
    }

    method RecordRecall(op: Operation, reply: string)
      requires CallsOk() && PlanOk() && CacheOk() && CircuitOk() && FailuresOk() && op.tool.FileRead?
      modifies this`calls, this`mutationSeen, this`verificationSeen, plan
      ensures CallsOk() && CacheOk() && PlanOk() && FailuresOk() && calls == old(calls) + [Recalled(op)]
      ensures plan != null ==> plan.status == old(plan.status)
      ensures RunFlags() == NextFlags(policy, old(RunFlags()), Recalled(op))
    {
      hide RunMeans, CacheSound, PlanSound, IsRisky, Sound, NextFlags, IsFreshInspection, SelfVerifies;
      hide IsBehaviorCheck, CircuitHolds, AlwaysBounded, FailingSince;
      ghost var e := Recalled(op);
      FailuresFollow(e);
      ghost var f := RunFlags();
      RunMeansStep(policy, mutationAtStart, verificationAtStart, resumed, calls, f, freshInspection, e);
      CacheAfterOther(policy, run, world, cache, calls, e);
      var mutation, verified := RecordInPlan(op, reply, e);
      TakeRecall(op, reply, mutation, verified);
    }

    method TakeRecall(op: Operation, result: string, mutation: bool, verified: bool)
      requires op.tool.FileRead? && mutation == (mutationSeen || (policy.effect(op) && !IsBehaviorCheck(policy, op)))
      requires verified == if IsBehaviorCheck(policy, op) then mutationSeen
                           else policy.effect(op) && SelfVerifies(policy, op, result)
      modifies this`calls, this`mutationSeen, this`verificationSeen
      ensures calls == old(calls) + [Recalled(op)] && !IsFreshInspection(Recalled(op))
      ensures RunFlags() == NextFlags(policy, old(RunFlags()), Recalled(op))
      ensures verificationSeen == old(verificationSeen) && mutationSeen == (old(mutationSeen) || policy.effect(op))
    {
      mutationSeen := mutation;
      verificationSeen := verificationSeen || verified;
      calls := calls + [Recalled(op)];
    }

    /** Record a call that failed or was turned down: the plan is stored again, nothing else moves. */
    method RecordFailure(op: Operation, outcome: Outcome, ghost e: CallEvent)
      requires CallsOk() && PlanOk() && CacheSound(policy, run, world, cache, calls + [e])
      requires outcome.isError && IsOutcomeOf(e, op, outcome)
      requires resumed && e.Executed? && IsRisky(policy, op) ==> freshInspection
      modifies this`calls, plan
      ensures CallsOk() && CacheOk() && PlanOk() && calls == old(calls) + [e]
      ensures plan != null ==> plan.status == old(plan.status)
    {
      hide CallsOk, CacheSound, PlanSound, CacheOk, IsRisky, SelfVerifies, IsBehaviorCheck, Sound;
      if plan != null { PlanIsSound(policy, calls, plan.steps, mutationSeen, verificationSeen); }
      var _, _ := RecordToolProgress(op, outcome);
      Note(e);
    }

    /**
     What follows a call that ran or was turned down: failures are counted, a rejection by the user pauses the run.
     */
    method Settle(op: Operation, outcome: Outcome, ghost e: CallEvent) returns (s: Step<Processed>)
      requires CallsOk() && PlanOk() && CircuitOk() && GuardOk() && FollowUpOk() && Open()
      requires IsOutcomeOf(e, op, outcome)
      requires CacheSound(policy, run, world, cache, calls + [e])
      requires resumed && e.Executed? && IsRisky(policy, op) ==> freshInspection
      requires CountsAsFailure(policy, e) ==> op !in blocked
      requires AlwaysBounded(policy, calls) && failures == if ClosesTheCircuit(policy, e) then []
                                                           else FailingSince(policy, calls)
      requires ClosesTheCircuit(policy, e) ==> blocked == map[]
      modifies this`calls, this`mutationSeen, this`verificationSeen, this`testVerificationSeen, this`freshInspection
      modifies this`verificationNudgeSent, this`inspections, this`blocked, this`failures, this`checkpoint, plan, tracker
      ensures Valid() && calls == old(calls) + [e]
      ensures RunFlags() == NextFlags(policy, old(RunFlags()), e)
      ensures freshInspection == (old(freshInspection) || IsFreshInspection(e))
      ensures Sent() == old(Sent()).(verification := old(Sent()).verification && !IsEffect(policy, e))
      ensures inspections == InspectionsAfter(cfg, policy, old(inspections), old(RunFlags()), e)
      ensures tracker.counts == CountsAfter(policy, old(tracker.counts), e)
      ensures blocked == BlockedAfter(policy, old(blocked), old(tracker.counts), e)
      ensures s.End? <==> Rejected(policy, e)
      ensures s.End? ==> Ended(s.result) && s.result == RunResult(RunPaused, ByPause)
      ensures s.Continue? ==> Open() && s.value.op == op && s.value.result == outcome.result
      ensures s.Continue? ==> s.value.isError == outcome.isError
      ensures s.Continue? ==> (s.value.stalled <==> ChecksStall(policy, old(RunFlags()), old(tracker.counts), e))
    {
      hide CallsOk, CacheSound, PlanOk, CircuitHolds, GuardOk, FollowUpOk, CacheOk, IsRisky, IsStateMutation, CountIn;
      hide StopsRetrying, IsBehaviorCheck, AlwaysBounded, FailingSince, CountsAsFailure, BlockedAfter, CountsAfter;
      hide ChecksStall, Open, NextFlags, InspectionsAfter, IsFreshInspection, IsEffect, Rejected, ClosesTheCircuit;
      hide Sent, RunFlags, Ended;
      var stalled := TrackFailure(op, outcome, e);
      AlwaysBoundedStep(policy, calls, e, tracker.counts, blocked);
      s := TakeOutcome(op, outcome, stalled, e);
    }

    /** Record the outcome of a call that ran or was turned down, or pause when the user rejected it. */
    method TakeOutcome(op: Operation, outcome: Outcome, stalled: bool, ghost e: CallEvent) returns (s: Step<Processed>)
      requires CallsOk() && PlanOk() && CircuitOk() && GuardOk() && FollowUpOk() && Open()
      requires IsOutcomeOf(e, op, outcome)
      requires CacheSound(policy, run, world, cache, calls + [e])
      requires resumed && e.Executed? && IsRisky(policy, op) ==> freshInspection
      requires failures == FailingSince(policy, calls + [e]) && AlwaysBounded(policy, calls + [e])
      modifies this`calls, this`mutationSeen, this`verificationSeen, this`testVerificationSeen, this`freshInspection
      modifies this`verificationNudgeSent, this`inspections, this`checkpoint, plan
      ensures Valid() && calls == old(calls) + [e]
      ensures RunFlags() == NextFlags(policy, old(RunFlags()), e)
      ensures freshInspection == (old(freshInspection) || IsFreshInspection(e))
      ensures Sent() == old(Sent()).(verification := old(Sent()).verification && !IsEffect(policy, e))
      ensures inspections == InspectionsAfter(cfg, policy, old(inspections), old(RunFlags()), e)
      ensures s == if Rejected(policy, e) then End(PAUSE)
                   else Continue(Processed(op, outcome.result, outcome.isError, stalled))
      ensures s.End? ==> Ended(s.result)
      ensures s.Continue? ==> Open()
    {
      hide CallsOk, CacheSound, PlanOk, CircuitHolds, GuardOk, FollowUpOk, CacheOk, IsRisky, CircuitOk, Ended;
      hide AlwaysBounded, FailingSince, NextFlags, InspectionsAfter, IsFreshInspection, IsEffect;
      if !outcome.isError {
        Progress(op, outcome.result);
        return Continue(Processed(op, outcome.result, outcome.isError, stalled));
      }
      QuietEvent(policy, RunFlags(), e);
      if policy.saysRejected(outcome.result) {
        Note(e);
        var r := Pause();
        return End(r);
      }
      RecordFailure(op, outcome, e);
      return Continue(Processed(op, outcome.result, outcome.isError, stalled));
    }

    /** Answer from the cache; a reused read still counts as an inspection attempt. */
    method Reuse(op: Operation, result: string)
      requires CallsOk() && PlanOk() && CacheOk() && CircuitOk() && FailuresOk() && Lookup(cache, op) == Some(result)
      modifies this`calls, this`inspections
      ensures CallsOk() && CacheOk() && PlanOk() && FailuresOk()
      ensures Now() == Moved(Settings(), old(Now()), Reused(op, result, world))
    {
      hide CallsOk, CacheSound, PlanOk, Lookup, IsRisky, CircuitHolds, AlwaysBounded, FailingSince;
      CacheAfterReuse(policy, run, world, cache, calls, op, result);
      FailuresFollow(Reused(op, result, world));
      QuietEvent(policy, RunFlags(), Reused(op, result, world));
      Note(Reused(op, result, world));
      if cfg.requireMutation && !mutationSeen && IsInspection(op.tool) { inspections := inspections + 1; }
    }

    /** Run a call that nothing stands against. */
    method RunTool(req: Request) returns (s: Step<Processed>)
      requires Valid() && Open() && !Denied(Settings(), freshInspection, req)
      requires !IsStateMutation(policy, req.op) ==> req.op !in blocked
      modifies this`world, this`cache, this`recordedReads
      modifies this`calls, this`mutationSeen, this`verificationSeen, this`testVerificationSeen, this`freshInspection
      modifies this`verificationNudgeSent, this`inspections, this`blocked, this`failures, this`checkpoint, plan, tracker
      ensures Valid()
      ensures var e := Executed(req.op, run(req.op, old(world)).outcome);
              && Now() == Moved(Settings(), old(Now()), e).(
                            recordedReads := RecordedAfter(Settings(), old(recordedReads), e, req.evidenceRecorded))
              && (s.End? <==> Rejected(policy, e))
              && (s.Continue? ==> s.value == OutcomeTold(policy, old(Now()), e))
      ensures s.Continue? ==> Open()
      ensures s.End? ==> Ended(s.result) && s.result == RunResult(RunPaused, ByPause)
    {
      hide CallsOk, PlanOk, GuardOk, FollowUpOk, CacheSound, CircuitHolds, AlwaysBounded, FailingSince, IsRisky;
      hide IsStateMutation, CacheAfter, InspectionsAfter, CountsAfter, StopsRetrying, ChecksStall, BlockedAfter;
      hide NextFlags, IsFreshInspection, IsEffect, Rejected, CacheOk, CircuitOk, ClosesTheCircuit, Open, Ended, Sent;
      hide RecordedAfter;
      var outcome := Dispatch(req.op, req.evidenceRecorded);
      s := Settle(req.op, outcome, Executed(req.op, outcome));
    }

    /** Turn a call down without running it. */
    method TurnDown(req: Request) returns (s: Step<Processed>)
      requires Valid() && Open() && Denied(Settings(), freshInspection, req)
      requires req.allowed && !IsStateMutation(policy, req.op) ==> req.op !in blocked
      modifies this`calls, this`mutationSeen, this`verificationSeen, this`testVerificationSeen, this`freshInspection
      modifies this`verificationNudgeSent, this`inspections, this`blocked, this`failures, this`checkpoint, plan, tracker
      ensures Valid()
      ensures var e := TurnedDown(req.op, Outcome(req.reply, true), req.allowed);
              && Now() == Moved(Settings(), old(Now()), e)
              && (s.End? <==> Rejected(policy, e))
              && (s.Continue? ==> s.value == OutcomeTold(policy, old(Now()), e))
      ensures s.Continue? ==> Open()
      ensures s.End? ==> Ended(s.result) && s.result == RunResult(RunPaused, ByPause)
    {
      hide CallsOk, PlanOk, GuardOk, FollowUpOk, CacheSound, CircuitHolds, AlwaysBounded, FailingSince, IsRisky;
      hide IsStateMutation, Denied, InspectionsAfter, CountsAfter, StopsRetrying, ChecksStall, BlockedAfter;
      hide NextFlags, IsFreshInspection, IsEffect, Rejected, Open, Ended, Sent;
      ghost var e := TurnedDown(req.op, Outcome(req.reply, true), req.allowed);
      CacheAfterOther(policy, run, world, cache, calls, e);
      s := Settle(req.op, Outcome(req.reply, true), e);
    }

    /** One call of an ordinary tool: failure circuit, reuse, denial, recall or execution, in this order. */
    method ProcessTool(req: Request) returns (s: Step<Processed>)
      requires Valid() && Open() && !IsHostTool(req.op.tool)
      modifies this`world, this`cache, this`recordedReads
      modifies this`calls, this`mutationSeen, this`verificationSeen, this`testVerificationSeen, this`freshInspection
      modifies this`verificationNudgeSent, this`inspections, this`blocked, this`failures, this`checkpoint, plan, tracker
      ensures Valid() && Now() == After(Settings(), old(Now()), req, false)
      ensures s.End? <==> Rejected(policy, Event(Settings(), old(Now()), req))
      ensures s.End? ==> Ended(s.result) && s.result == RunResult(RunPaused, ByPause)
      ensures s.Continue? ==> Open() && s.value == Told(Settings(), old(Now()), req)
    {
      hide CallsOk, PlanOk, GuardOk, FollowUpOk, CacheOk, CircuitOk, FailuresOk, IsRisky, IsStateMutation, Lookup;
      hide Moved, InspectionsAfter, CountsAfter, BlockedAfter, ChecksStall, RecordedAfter, After, OutcomeTold;
      hide Ended, Now;
      NowIs();
      AfterTool(Settings(), Now(), req, false);
      var op := req.op;
      if req.allowed && !IsStateMutation(policy, op) && op in blocked {
        NoteNotRun(op);
        return Continue(Processed(op, req.reply, true, false));
      }
      if req.allowed && !cfg.polling && !policy.risk(op).mutation && Lookup(cache, op).Some? {
        var result := Lookup(cache, op).value;
        Reuse(op, result);
        return Continue(Processed(op, REUSED + result, false, false));
      }
      if Denied(Settings(), freshInspection, req) {
        s := TurnDown(req);
      } else if Recallable(Settings(), recordedReads, req) {
        Recall(op, req.reply);
        return Continue(Processed(op, req.reply, false, false));
      } else {
        s := RunTool(req);
      }
    }

    lemma NowIs()
      ensures Now() == Situation(calls, world, cache, blocked, tracker.counts, RunFlags(), freshInspection, inspections,
                                 recordedReads, Sent())
    {
    }

    /** What the loop guard remembers. */
    ghost function Remembered(): Memory
      reads guard
    {
      Memory(guard.lastCallBatch, guard.consecutive, guard.recent, guard.semanticRecent)
    }

    /** Everything a turn depends on or moves. */
    ghost function State(): Loop
      reads this`calls, this`world, this`cache, this`blocked, this`mutationSeen, this`verificationSeen
      reads this`testVerificationSeen, this`freshInspection, this`inspections, this`recordedReads
      reads this`finalRepairSent, this`noChangeNudgeSent, this`verificationNudgeSent, this`toolNudgeSent
      reads this`auditSent, this`implementationNudgeSent, this`toolWasCalled, tracker, guard
    {
      Loop(Now(), Remembered(), toolWasCalled)
    }

    /** A known mutation still lacks the verification the settings ask for. */
    predicate Unverified()
      reads this`mutationSeen, this`verificationSeen, this`testVerificationSeen
    {
      LacksProof(cfg, Flags(mutationSeen, verificationSeen, testVerificationSeen))
    }

    predicate AuditDue()
      reads this`mutationSeen, this`verificationSeen, this`testVerificationSeen, this`toolWasCalled, this`auditSent
    {
      LacksAudit(cfg, Flags(mutationSeen, verificationSeen, testVerificationSeen), toolWasCalled, auditSent)
    }

    predicate LacksMutation(justifiesNoChange: bool)
      reads this`mutationSeen, this`verificationSeen, this`testVerificationSeen
    {
      LacksChange(cfg, Flags(mutationSeen, verificationSeen, testVerificationSeen), justifiesNoChange)
    }

    /**
     The runtime completion call: completes the run exactly when it comes alone, with a summary, and no gate is closed.
     */
    method CompletionSignal(req: Request, sole: bool, guardAccepts: bool) returns (s: Step<Processed>)
      requires Valid() && Open() && toolWasCalled && req.op.tool.RuntimeComplete?
      modifies this`calls, this`auditSent, this`followUpAsked, this`guardRuns, this`checkpoint, this`checkpointCleared
      modifies plan
      ensures Valid()
      ensures s.End? <==> Completes(cfg, old(Now()), req, sole)
      ensures s.End? ==> Ended(s.result) && s.result == Guarded(cfg, BySignal(req.justifiesNoChange), guardAccepts)
      ensures s.End? ==> Now() == old(Now())
      ensures s.Continue? ==> Open() && s.value == Told(Settings(), old(Now()), req)
      ensures s.Continue? ==> Now() == After(Settings(), old(Now()), req, sole)
      ensures old(followUpAsked) ==> followUpAsked
    {
      hide CallsOk, CacheOk, CircuitOk, FailuresOk, GuardOk, PlanOk, LacksMutation, Unverified, AuditDue, Moved, After;
      hide Told, Earned, LacksChange, LacksProof, LacksAudit, Now, Valid, Open, Ended, AsksForAudit, Completes;
      DeclinedCompletion(Settings(), Now(), req, sole);
      CompletesWhen(req, sole);
      var accepted := sole && req.hasSummary && !LacksMutation(req.justifiesNoChange) && !Unverified();
      if accepted && cfg.enforceVerification && AuditDue() {
        accepted := false;
        AskForAudit();
      }
      if accepted {
        var r := Complete(BySignal(req.justifiesNoChange), guardAccepts);
        return End(r);
      }
      AnswerByHost(req.op);
      return Continue(Processed(req.op, req.reply, true, false));
    }

    method AskForAudit()
      requires Valid() && Open()
      modifies this`auditSent, this`followUpAsked
      ensures Valid() && Open() && followUpAsked && Now() == old(Now()).(sent := old(Now()).sent.(audit := true))
    {
      hide CallsOk, CacheOk, CircuitOk, FailuresOk, GuardOk, PlanOk;
      auditSent, followUpAsked := true, true;
    }

    /** The host answers a call itself. */
    method AnswerByHost(op: Operation)
      requires Valid() && Open()
      modifies this`calls
      ensures Valid() && Open() && Now() == Moved(Settings(), old(Now()), NotRun(op))
    {
      hide CallsOk, CacheOk, CircuitOk, FailuresOk, GuardOk, PlanOk, Moved, Now;
      NoteNotRun(op);
    }

    /** A gate is closed exactly when the exit it guards is not earned. */
    lemma GatesAreWhatIsEarned(noChange: bool)
      ensures Earned(ByText(noChange)) <==> !LacksMutation(noChange) && !Unverified()
                                            && !(cfg.enforceVerification && AuditDue())
      ensures Earned(BySignal(noChange)) <==> Earned(ByText(noChange))
      ensures Earned(ByDone) <==> !Unverified() && !AuditDue()
    {
    }

    lemma CompletesWhen(req: Request, sole: bool)
      requires toolWasCalled && req.op.tool.RuntimeComplete?
      ensures Now().sent.(audit := auditSent) == Now().sent && Now().(sent := Now().sent) == Now()
      ensures var accepted := sole && req.hasSummary && !LacksMutation(req.justifiesNoChange) && !Unverified();
              && (AsksForAudit(cfg, Now(), req, sole) <==> accepted && cfg.enforceVerification && AuditDue())
              && (Completes(cfg, Now(), req, sole) <==> accepted && !(cfg.enforceVerification && AuditDue()))
              && (Completes(cfg, Now(), req, sole) ==> Earned(BySignal(req.justifiesNoChange)))
    {
    }

    /** One call of a batch. */
    method ProcessCall(req: Request, sole: bool, guardAccepts: bool) returns (s: Step<Processed>)
      requires Valid() && Open() && toolWasCalled
      modifies this`world, this`cache, this`recordedReads
      modifies this`calls, this`mutationSeen, this`verificationSeen, this`testVerificationSeen, this`freshInspection
      modifies this`verificationNudgeSent, this`inspections, this`blocked, this`failures
      modifies this`auditSent, this`followUpAsked, this`guardRuns, this`checkpoint, this`checkpointCleared
      modifies plan, tracker
      ensures Valid() && (s.Continue? ==> Open()) && (s.End? ==> Ended(s.result))
      ensures old(followUpAsked) ==> followUpAsked
      ensures BatchOutcome(Now(), if s.Continue? then [s.value] else [], if s.End? then Some(s.result) else None)
              == OneCall(Settings(), old(Now()), req, sole, guardAccepts)
    {
      hide CallsOk, CacheOk, CircuitOk, FailuresOk, GuardOk, PlanOk, FollowUpOk, Earned, Completes, Rejected, Event;
      hide Moved, After, Told, Ended, Now, OneCall, Valid, Open;
      if req.stopBefore {
        StoppedCall(Settings(), Now(), req, sole, guardAccepts);
        var r := Pause();
        return End(r);
      }
      match req.op.tool
      case RuntimeComplete =>
        CompletionCall(Settings(), Now(), req, sole, guardAccepts);
        s := CompletionSignal(req, sole, guardAccepts);
      case MetaTool(_) =>
        OrdinaryCall(Settings(), Now(), req, sole, guardAccepts);
        AnswerByHost(req.op);
        s := Continue(Processed(req.op, req.reply, req.metaError, false));
      case _ =>
        OrdinaryCall(Settings(), Now(), req, sole, guardAccepts);
        s := ProcessTool(req);
    }

    /** The calls of an admitted batch, in order, until one ends the run. */
    method RunBatch(reqs: seq<Request>, guardAccepts: bool) returns (s: Step<seq<Processed>>, ghost b: BatchOutcome)
      requires Valid() && Open() && toolWasCalled
      modifies this`world, this`cache, this`recordedReads
      modifies this`calls, this`mutationSeen, this`verificationSeen, this`testVerificationSeen, this`freshInspection
      modifies this`verificationNudgeSent, this`inspections, this`blocked, this`failures
      modifies this`auditSent, this`followUpAsked, this`guardRuns, this`checkpoint, this`checkpointCleared
      modifies plan, tracker
      ensures Valid() && (s.Continue? ==> Open()) && (s.End? ==> Ended(s.result)) && old(calls) <= calls
      ensures old(followUpAsked) ==> followUpAsked
      ensures b == Batch(Settings(), old(Now()), reqs, |reqs| == 1, guardAccepts) && b.now == Now()
      ensures b.end == (if s.End? then Some(s.result) else None) && (s.Continue? ==> s.value == b.told)
    {
      hide Valid, Ended, Now, OneCall, Batch, Open;
      NowIs();
      NoCallYet(Settings(), Now(), reqs, |reqs| == 1, guardAccepts);
      ghost var start := Now();
      var done: seq<Processed> := [];
      for i := 0 to |reqs|
        invariant Valid() && Open() && (old(followUpAsked) ==> followUpAsked)
        invariant Batch(Settings(), start, reqs[..i], |reqs| == 1, guardAccepts) == BatchOutcome(Now(), done, None)
      {
        OneMoreCall(Settings(), start, reqs, |reqs| == 1, guardAccepts, i);
        var one := ProcessCall(reqs[i], |reqs| == 1, guardAccepts);
        if one.End? {
          EndedBatch(Settings(), start, reqs, |reqs| == 1, guardAccepts, i + 1);
          NowIs();
          b := BatchOutcome(Now(), done, Some(one.result));
          return End(one.result), b;
        }
        done := done + [one.value];
      }
      assert reqs[..|reqs|] == reqs;
      NowIs();
      b := BatchOutcome(Now(), done, None);
      return Continue(done), b;
    }

    /** Observe a requested batch and decide whether it runs. */
    method AdmitBatch(ops: seq<Operation>) returns (v: Admission)
      requires GuardOk() && ops != []
      modifies guard, this`batches, this`implementationNudgeSent
      ensures GuardOk() && batches == old(batches) + [BatchEvent(ops, v == Admitted)]
      ensures var times, mutating := Times(old(Remembered()), ops), MutatingBatch(policy, ops);
              && v == AdmissionOf(cfg, times, mutating)
              && Remembered() == (if v == Nudged && !mutating then Memory([], 0, [], [])
                                  else old(Remembered()).(last := ops, consecutive := times))
              && implementationNudgeSent == (old(implementationNudgeSent)
                                             || (v == Nudged && !mutating && cfg.requireMutation && !mutationSeen))
    {
      hide MutatingBatch, Remembers, NeverRepeated;
      ghost var last := guard.lastCallBatch;
      var times := guard.ObserveCalls(ops);
      var mutating := MutatingBatch(policy, ops);
      v := AdmissionOf(cfg, times, mutating);
      if v == Nudged && !mutating {
        implementationNudgeSent := implementationNudgeSent || (cfg.requireMutation && !mutationSeen);
        guard.Reset();
      }
      LoopGuard.BatchStep(policy, last, batches, BatchEvent(ops, v == Admitted), guard.lastCallBatch);
      batches := batches + [BatchEvent(ops, v == Admitted)];
    }

    /** Observe the results of a batch: nudge a run that only inspects, and tell whether the run stalls. */
    method ObserveBatch(ops: seq<Operation>, done: seq<Processed>) returns (stop: bool)
      requires GuardOk()
      modifies guard`recent, guard`semanticRecent, this`implementationNudgeSent
      ensures GuardOk() && Remembered() == Observed(Settings(), old(Remembered()), ops, done)
      ensures implementationNudgeSent == (old(implementationNudgeSent) || InspectsOnly(cfg, mutationSeen, inspections))
      ensures stop <==> Stalls(policy, old(Remembered()), ops, done,
                               InspectsOnly(cfg, mutationSeen, inspections) && !old(implementationNudgeSent))
    {
      hide Remembers, NeverRepeated, Results, BatchEffect, AnyStalled, Count, Signatures, StallRepeats, NextBags, Last;
      hide FingerprintOf, InspectsOnly;
      var results := Results(done);
      var repeats := guard.Observe(ops, results);
      var effect := BatchEffect(policy, done);
      var semantic := guard.ObserveSemanticStall(policy.stallSignature, results, effect);
      var nudged := InspectsOnly(cfg, mutationSeen, inspections) && !implementationNudgeSent;
      if nudged { implementationNudgeSent := true; }
      stop := AnyStalled(done) || (semantic >= SEMANTIC_STALL_REPEATS && !nudged) || repeats >= STALL_FALLBACK_REPEATS;
    }

    /** After a batch: pause a run that stalls, else go on. */
    method AfterBatch(ops: seq<Operation>, done: seq<Processed>) returns (r: Option<RunResult>)
      requires Valid() && Open()
      modifies guard`recent, guard`semanticRecent, this`implementationNudgeSent, this`checkpoint, plan
      ensures Valid() && (r.None? ==> Open()) && (r.Some? ==> Ended(r.value))
      ensures Remembered() == Observed(Settings(), old(Remembered()), ops, done)
      ensures implementationNudgeSent == (old(implementationNudgeSent) || InspectsOnly(cfg, mutationSeen, inspections))
      ensures r == if Stalls(policy, old(Remembered()), ops, done,
                             InspectsOnly(cfg, mutationSeen, inspections) && !old(implementationNudgeSent))
                   then Some(PAUSE) else None
    {
      hide CallsOk, CacheOk, CircuitOk, FailuresOk, PlanOk, FollowUpOk, GuardOk, Ended, Stalls, Observed, Remembered;
      hide InspectsOnly;
      var stop := ObserveBatch(ops, done);
      r := PauseOrGoOn(stop);
    }

    /** Pause, or save a checkpoint and let the model continue. */
    method PauseOrGoOn(stop: bool) returns (r: Option<RunResult>)
      requires Valid() && Open()
      modifies this`checkpoint, plan
      ensures Valid() && (r.None? ==> Open()) && (r.Some? ==> Ended(r.value))
      ensures r == if stop then Some(PAUSE) else None
    {
      hide CallsOk, CacheOk, CircuitOk, FailuresOk, PlanOk, FollowUpOk, GuardOk, Ended;
      if stop {
        var result := Pause();
        return Some(result);
      }
      SaveJournal();
      return None;
    }

    /**
     An answer with calls that begins with DONE: the third way to complete. It does not ask for a required mutation.
     */
    method DoneTurn(guardAccepts: bool) returns (r: Option<RunResult>)
      requires Valid() && Open() && toolWasCalled
      modifies this`verificationNudgeSent, this`auditSent, this`followUpAsked
      modifies this`guardRuns, this`checkpoint, this`checkpointCleared, plan
      ensures Valid() && (r.None? ==> Open()) && (r.Some? ==> Ended(r.value))
      ensures (Sent(), r) == DoneAnswer(cfg, RunFlags(), old(Sent()), guardAccepts)
      ensures old(followUpAsked) ==> followUpAsked
    {
      hide CallsOk, CacheOk, CircuitOk, FailuresOk, GuardOk, PlanOk, Ended, Earned, LacksProof, LacksAudit;
      GatesAreWhatIsEarned(false);
      if Unverified() {
        if !verificationNudgeSent {
          verificationNudgeSent, followUpAsked := true, true;
          return None;
        }
        var p := Pause();
        return Some(p);
      }
      if AuditDue() {
        auditSent, followUpAsked := true, true;
        SaveJournal();
        return None;
      }
      var c := Complete(ByDone, guardAccepts);
      return Some(c);
    }

    method Admit(ops: seq<Operation>) returns (v: Admission)
      requires Valid() && Open() && ops != []
      modifies guard, this`batches, this`implementationNudgeSent
      ensures Valid() && Open() && batches == old(batches) + [BatchEvent(ops, v == Admitted)]
      ensures var l := old(State());
              var times, mutating := Times(l.memory, ops), MutatingBatch(policy, ops);
              && v == AdmissionOf(cfg, times, mutating)
              && State() == AfterAdmission(cfg, l, ops, v, mutating)
    {
      hide CallsOk, CacheOk, CircuitOk, FailuresOk, PlanOk, FollowUpOk, GuardOk, AdmissionOf, MutatingBatch, Remembered;
      v := AdmitBatch(ops);
    }

    /** An answer with calls. A batch the loop guard does not admit runs none of them. */
    method CallTurn(text: Text, reqs: seq<Request>, guardAccepts: bool) returns (r: Option<RunResult>)
      requires Valid() && Open() && reqs != []
      modifies this, plan, guard, tracker
      ensures Valid() && (r.None? ==> Open()) && (r.Some? ==> Ended(r.value))
      ensures TurnOutcome(State(), r) == CallAnswer(Settings(), old(State()), text, reqs, guardAccepts)
      ensures |batches| == |old(batches)| + 1 && old(batches) <= batches
      ensures batches[|old(batches)|].batch == Operations(reqs)
      ensures old(calls) <= calls && (!batches[|old(batches)|].started ==> calls == old(calls))
      ensures modelTurns == old(modelTurns) && (old(followUpAsked) ==> followUpAsked)
    {
      hide Valid, Open, Ended, AdmissionOf, MutatingBatch, Operations, State, Started, AfterAdmission;
      var ops := Operations(reqs);
      var v := Admit(ops);
      if v != Admitted {
        r := PauseOrGoOn(v == Refused);
        return;
      }
      r := StartBatch(text, ops, reqs, guardAccepts);
    }

    /** What follows from the results of a batch: a pause, what an answer that says DONE leads to, or another turn. */
    method FollowBatch(text: Text, ops: seq<Operation>, done: seq<Processed>,
                       guardAccepts: bool) returns (r: Option<RunResult>)
      requires Valid() && Open() && toolWasCalled
      modifies guard`recent, guard`semanticRecent, this`implementationNudgeSent
      modifies this`verificationNudgeSent, this`auditSent, this`followUpAsked
      modifies this`guardRuns, this`checkpoint, this`checkpointCleared, plan
      ensures Valid() && (r.None? ==> Open()) && (r.Some? ==> Ended(r.value))
      ensures (Sent(), r) == BatchEnd(Settings(), RunFlags(), inspections, old(Sent()), old(Remembered()), text, ops,
                                      done, guardAccepts)
      ensures Remembered() == Observed(Settings(), old(Remembered()), ops, done)
      ensures old(followUpAsked) ==> followUpAsked
    {
      hide Valid, Ended, Stalls, DoneAnswer, Observed, InspectsOnly, Open, Remembered;
      r := AfterBatch(ops, done);
      if r.None? && text.saysDone {
        r := DoneTurn(guardAccepts);
      }
    }

    method TakeResults(text: Text, ops: seq<Operation>, done: seq<Processed>,
                       guardAccepts: bool) returns (r: Option<RunResult>)
      requires Valid() && Open() && toolWasCalled
      modifies guard`recent, guard`semanticRecent, this`implementationNudgeSent
      modifies this`verificationNudgeSent, this`auditSent, this`followUpAsked
      modifies this`guardRuns, this`checkpoint, this`checkpointCleared, plan
      ensures Valid() && (r.None? ==> Open()) && (r.Some? ==> Ended(r.value))
      ensures var now := old(Now());
              && (Now().sent, r) == BatchEnd(Settings(), now.flags, now.inspections, now.sent, old(Remembered()), text,
                                             ops, done, guardAccepts)
              && Now() == now.(sent := Now().sent)
      ensures Remembered() == Observed(Settings(), old(Remembered()), ops, done)
      ensures old(followUpAsked) ==> followUpAsked
    {
      hide Valid, Open, Ended, BatchEnd, RunFlags, Remembered, Sent, Observed;
      r := FollowBatch(text, ops, done, guardAccepts);
    }

    /** The calls of an admitted batch, and what follows from their results. */
    method StartBatch(text: Text, ops: seq<Operation>, reqs: seq<Request>,
                      guardAccepts: bool) returns (r: Option<RunResult>)
      requires Valid() && Open() && ops == Operations(reqs)
      modifies this`world, this`cache, this`recordedReads
      modifies this`calls, this`mutationSeen, this`verificationSeen, this`testVerificationSeen, this`freshInspection
      modifies this`verificationNudgeSent, this`inspections, this`blocked, this`failures
      modifies this`auditSent, this`followUpAsked, this`guardRuns, this`checkpoint, this`checkpointCleared
      modifies plan, tracker
      modifies this`toolWasCalled, this`implementationNudgeSent, guard`recent, guard`semanticRecent
      ensures Valid() && (r.None? ==> Open()) && (r.Some? ==> Ended(r.value))
      ensures TurnOutcome(State(), r) == Started(Settings(), old(State()), text, reqs, guardAccepts)
      ensures old(calls) <= calls && (old(followUpAsked) ==> followUpAsked)
    {
      hide CallsOk, CacheOk, CircuitOk, FailuresOk, GuardOk, PlanOk, FollowUpOk, Ended, Batch, BatchEnd, Operations;
      hide Observed, Open, Sent, Remembered, RunFlags, Now;
      toolWasCalled := true;
      var s, b := RunBatch(reqs, guardAccepts);
      if s.End? { return Some(s.result); }
      r := TakeResults(text, ops, s.value, guardAccepts);
    }

    predicate ToolNudgeDue()
      reads this`toolWasCalled, this`toolNudgeSent
    {
      cfg.mustUseTools && !toolWasCalled && !toolNudgeSent
    }

    /**
     Ask for a better final answer, each kind of request once (the one for verification once after every mutation).
     */
    method AskForMore(text: Text) returns (f: Followup)
      requires FollowUpOk()
      modifies this`finalRepairSent, this`noChangeNudgeSent, this`verificationNudgeSent, this`toolNudgeSent
      modifies this`auditSent, this`followUpAsked
      ensures FollowUpOk() && (old(followUpAsked) ==> followUpAsked)
      ensures (f, Sent()) == Ask(cfg, RunFlags(), toolWasCalled, old(Sent()), text)
    {
      hide LacksChange, LacksProof, LacksAudit;
      if text.unusable {
        if finalRepairSent { return Hopeless; }
        finalRepairSent, followUpAsked := true, true;
        return Asked;
      }
      if LacksMutation(text.justifiesNoChange) {
        if noChangeNudgeSent { return Hopeless; }
        noChangeNudgeSent := true;
        return Asked;
      }
      if Unverified() {
        if verificationNudgeSent { return Hopeless; }
        verificationNudgeSent, followUpAsked := true, true;
        return Asked;
      }
      if ToolNudgeDue() {
        toolNudgeSent := true;
        return Asked;
      }
      if cfg.enforceVerification && AuditDue() {
        auditSent, followUpAsked := true, true;
        return Asked;
      }
      return Satisfied;
    }

    lemma SatisfiedIsEarned(text: Text, before: Requests)
      requires Ask(cfg, RunFlags(), toolWasCalled, before, text) == (Satisfied, Sent())
      ensures Earned(ByText(text.justifiesNoChange))
    {
    }

    /** An answer without calls: completes the run when it lacks nothing, else asks for what it lacks or gives up. */
    method TextTurn(text: Text, guardAccepts: bool) returns (r: Option<RunResult>)
      requires Valid() && Open()
      modifies this`finalRepairSent, this`noChangeNudgeSent, this`verificationNudgeSent, this`toolNudgeSent
      modifies this`auditSent
      modifies this`followUpAsked, this`guardRuns, this`checkpoint, this`checkpointCleared, plan
      ensures Valid() && (r.None? ==> Open()) && (r.Some? ==> Ended(r.value))
      ensures (Sent(), r) == TextEnd(cfg, RunFlags(), toolWasCalled, old(Sent()), text, guardAccepts)
      ensures old(followUpAsked) ==> followUpAsked
    {
      hide CallsOk, CacheOk, CircuitOk, FailuresOk, GuardOk, PlanOk, Ended, FollowUpOk, Ask, Earned, Sent, RunFlags;
      var f := AskForMore(text);
      match f
      case Asked =>
        SaveJournal();
        return None;
      case Hopeless =>
        var p := Pause();
        return Some(p);
      case Satisfied =>
        SatisfiedIsEarned(text, old(Sent()));
        var c := Complete(ByText(text.justifiesNoChange), guardAccepts);
        return Some(c);
    }

    method AnswerText(text: Text, guardAccepts: bool) returns (r: Option<RunResult>)
      requires Valid() && Open()
      modifies this`finalRepairSent, this`noChangeNudgeSent, this`verificationNudgeSent, this`toolNudgeSent
      modifies this`auditSent
      modifies this`followUpAsked, this`guardRuns, this`checkpoint, this`checkpointCleared, plan
      ensures Valid() && (r.None? ==> Open()) && (r.Some? ==> Ended(r.value))
      ensures TurnOutcome(State(), r) == TextAnswer(Settings(), old(State()), text, guardAccepts)
      ensures old(followUpAsked) ==> followUpAsked
    {
      hide Valid, Open, Ended, TextEnd, RunFlags, Remembered, Sent;
      r := TextTurn(text, guardAccepts);
    }

    /** Count the turn in the plan and ask the model. */
    method CountTurn(iteration: nat)
      requires Valid() && Open()
      modifies this`modelTurns, plan
      ensures Valid() && Open() && modelTurns == old(modelTurns) + 1
      ensures plan != null ==> plan.iteration == iteration && plan.stored.iteration == iteration
    {
      hide CallsOk, CacheOk, CircuitOk, FailuresOk, GuardOk, FollowUpOk, PlanSound, Sound;
      modelTurns := modelTurns + 1;
      if plan != null {
        PlanIsSound(policy, calls, plan.steps, mutationSeen, verificationSeen);
        plan.iteration := iteration;
        plan.Save();
      }
    }

    /** A model reply that is no answer: interrupted, or failed for now or for good. */
    method NoAnswer(reply: ModelReply) returns (r: RunResult)
      requires Valid() && Open() && !reply.Answer?
      modifies this`checkpoint, plan
      ensures Valid() && Ended(r)
      ensures r == if reply.Broken? && !reply.retryable then RunResult(RunFailed, ByModelFailure)
                   else RunResult(RunPaused, ByPause)
    {
      if reply.Broken? && !reply.retryable {
        r := Fail();
      } else {
        r := Pause();
      }
    }

    /** One turn: yield, operator stop, or a model call and what follows from its reply. */
    method TakeTurn(turn: Turn, iteration: nat) returns (r: Option<RunResult>)
      requires Valid() && Open()
      modifies this, plan, guard, tracker
      ensures Valid() && (r.None? ==> Open()) && (r.Some? ==> Ended(r.value))
      ensures TurnOutcome(State(), r) == OneTurn(Settings(), old(State()), turn)
      ensures modelTurns == old(modelTurns) + if turn.handsOver || turn.stops then 0 else 1
      ensures turn.handsOver || turn.stops ==> r.Some?
      ensures old(calls) <= calls && old(batches) <= batches && (old(followUpAsked) ==> followUpAsked)
    {
      hide CallsOk, CacheOk, CircuitOk, FailuresOk, GuardOk, PlanOk, FollowUpOk, Earned;
      hide Operations, Ended, TextAnswer, CallAnswer, State;
      if turn.handsOver {
        r := HandOver();
        return;
      }
      if turn.stops {
        var p := Pause();
        return Some(p);
      }
      CountTurn(iteration);
      if !turn.reply.Answer? {
        var n := NoAnswer(turn.reply);
        return Some(n);
      }
      if turn.reply.calls == [] {
        r := AnswerText(turn.reply.text, turn.guardAccepts);
      } else {
        r := CallTurn(turn.reply.text, turn.reply.calls, turn.guardAccepts);
      }
    }

    /** Yield: save a checkpoint and leave the plan running. */
    method HandOver() returns (r: Option<RunResult>)
      requires Valid() && Open()
      modifies this`checkpoint, plan
      ensures Valid() && r == Some(RunResult(RunPaused, ByYield)) && Ended(r.value)
    {
      hide CallsOk, CacheOk, CircuitOk, FailuresOk, GuardOk, PlanOk, FollowUpOk, Earned;
      SaveJournal();
      return Some(RunResult(RunPaused, ByYield));
    }

    /** The gate: a completed run that knows of a mutation has it verified, and tested where that is required. */
    ghost predicate VerifiedWhenCompleted(r: RunResult)
      reads this
    {
      r.status.RunCompleted? && cfg.enforceVerification && KnowsMutation(policy, mutationAtStart, calls, |calls|) ==>
        && Verified(policy, mutationAtStart, verificationAtStart, calls)
        && (cfg.requireTest ==> Tested(policy, mutationAtStart, calls))
    }

    lemma CompletedRunsAreVerified(r: RunResult)
      requires CallsOk() && Ended(r)
      ensures VerifiedWhenCompleted(r)
    {
      hide KnowsMutation, Verified, Tested;
    }

    /** What every run has kept when it ends, over its whole log. */
    ghost predicate PromisesKept()
      reads this, plan
    {
      && (resumed ==> RiskOnlyAfterInspection(policy, calls))
      && AlwaysBounded(policy, calls)
      && NeverRepeated(policy, batches)
      && |cache| <= CACHE_LIMIT && (StableWorld(policy, run) ==> ReusesAreFaithful(run, calls))
      && (plan != null ==>
            && OnTheSafeSide(plan.stored.steps, mutationSeen, verificationSeen)
            && (NoRecallCounted(policy, calls) ==> SameProof(plan.stored.steps, verificationSeen))
            && CarriedBy(plan.stored.steps))
    }

    /** Stored plan steps are a link of a chain of runs. */
    ghost predicate CarriedBy(steps: seq<PlanStep>)
      reads this`calls
    {
      var (m, v) := ProgressFlags(steps);
      Carries(policy, mutationAtStart, verificationAtStart, calls, m, v)
    }

    /**
     `_run_impl`: the turns of the script one after the other, until one ends the run. Turns beyond the limit are taken
     only while a request of the host is open, and there are at most two.
     */
    method Run(script: nat -> Turn) returns (r: RunResult, ghost taken: nat)
      requires Valid() && Open() && modelTurns == 0 && !followUpAsked
      modifies this, plan, guard, tracker
      ensures Valid() && Ended(r) && VerifiedWhenCompleted(r) && PromisesKept()
      ensures RunsTo(Settings(), old(State()), script, taken, r)
      ensures State() == LoopAfter(Settings(), old(State()), script, taken)
      ensures modelTurns == if taken > 0 && (script(taken - 1).handsOver || script(taken - 1).stops) then taken - 1
                            else taken
      ensures taken <= IterationLimit(cfg) + GRACE_TURNS && (taken > IterationLimit(cfg) ==> followUpAsked)
      ensures old(calls) <= calls && old(batches) <= batches
    {
      hide Valid, Ended, IterationLimit, PromisesKept, VerifiedWhenCompleted, OneTurn, State;
      hide OpenFor, RunsTo, LoopAfter, FollowUpPending, FollowUpSent, Open;
      var limit := IterationLimit(cfg);
      var start := if plan != null then plan.iteration else 0;
      var grace := GRACE_TURNS;
      ghost var first, setup := State(), Settings();
      Unstarted(first, script);
      taken := 0;
      var i := 0;
      while i < limit + GRACE_TURNS
        invariant 0 <= i <= limit + GRACE_TURNS && Valid() && Open() && taken == i
        invariant grace == if i <= limit then GRACE_TURNS else limit + GRACE_TURNS - i
        invariant State() == LoopAfter(setup, first, script, i)
        invariant OpenFor(setup, first, script, i)
        invariant modelTurns == i && (i > 0 ==> !script(i - 1).handsOver && !script(i - 1).stops)
        invariant i > limit ==> followUpAsked
        invariant old(calls) <= calls && old(batches) <= batches
      {
        PendingMeansSent();
        if i >= limit {
          if !FollowUpSent() || grace <= 0 { break; }
          FollowUpsAreLogged();
          grace := grace - 1;
        }
        taken := i + 1;
        TurnTaken(setup, first, script, i);
        var turn := TakeTurn(script(i), start + i + 1);
        if turn.Some? {
          Conclude(turn.value);
          return turn.value, taken;
        }
        i := i + 1;
      }
      PendingMeansSent();
      NoMoreTurns(setup, first, script, i);
      r := Pause();
      Conclude(r);
    }

    lemma Unstarted(first: Loop, script: nat -> Turn)
      ensures OpenFor(Settings(), first, script, 0) && LoopAfter(Settings(), first, script, 0) == first
    {
    }

    lemma PendingMeansSent()
      ensures FollowUpPending(State()) <==> FollowUpSent()
    {
    }

    /** The run starts from what the runs of `story` left. */
    ghost predicate InChain(story: seq<RunRecord>) {
      Chained(policy, story) && LeftBy(story) == (mutationAtStart, verificationAtStart)
    }

    /** The gate of a completed run speaks for every run before it. */
    lemma StoryIsVerified(story: seq<RunRecord>, r: RunResult)
      requires VerifiedWhenCompleted(r) && InChain(story) && r.status.RunCompleted? && cfg.enforceVerification
      ensures var all := Story(story) + calls;
              LastEffect(policy, all) >= 0 ==> Verified(policy, false, false, all)
    {
      hide KnowsMutation, Verified, Tested, Chained, LeftBy, Story, LastEffect;
      CompletedStoryIsVerified(policy, story, calls);
    }

    lemma FollowUpsAreLogged()
      requires Valid() && FollowUpSent()
      ensures followUpAsked
    {
    }

    lemma Conclude(r: RunResult)
      requires Valid() && Ended(r)
      ensures VerifiedWhenCompleted(r) && PromisesKept()
    {
    }

    lemma ValidRunsKeepTheirPromises()
      requires Valid()
      ensures PromisesKept()
    {
      hide RiskOnlyAfterInspection, AlwaysBounded, NeverRepeated, StableWorld, ReusesAreFaithful, SameProof;
      hide NoRecallCounted;
      hide KnowsMutation, Verified, Tested, ProgressFlags, CircuitHolds, FailingSince;
    }
  }

  lemma TestsAreChecks(p: Policy, op: Operation)
    ensures op.tool.Test? ==> IsBehaviorCheck(p, op)
  {
  }

  datatype ResumeRequest = NoResume | ResumeLatest | ResumeCurrent | ResumeById

  /**
   `_prepare_plan`: resume a stored plan that is not completed, or create a new one. Naming a plan that is missing or
   completed is an error; the latest plan is resumed only if there is one to resume.
   */
  method PreparePlan(persistent: bool, quick: bool, request: ResumeRequest, current: Option<PlanData>,
                     byId: Option<PlanData>)
    returns (r: Result<(Plan?, bool), string>)
    requires (current.Some? ==> Sound(current.value.steps)) && (byId.Some? ==> Sound(byId.value.steps))
    ensures var wanted := if request.ResumeById? then byId else current;
            var named := request.ResumeById? || request.ResumeCurrent?;
            var inUse := persistent && !(quick && request.NoResume?);
            && (r.Failure? <==> inUse && named && (wanted.None? || wanted.value.status == Completed))
            && (r.Success? ==>
                  var (plan, resumed) := r.value;
                  && (plan == null <==> !inUse)
                  && (resumed <==> inUse && !request.NoResume? && wanted.Some? && wanted.value.status != Completed)
                  && (plan != null ==> fresh(plan) && plan.Valid())
                  && (plan != null ==> plan.stored == plan.Data() && plan.status == Running)
                  && (plan != null ==> ProgressFlags(plan.steps) == if resumed then ProgressFlags(wanted.value.steps)
                                                                    else (false, false)))
  {
    hide ProgressFlags;
    if !persistent || (quick && request.NoResume?) { return Success((null, false)); }
    if !request.NoResume? {
      var wanted := if request.ResumeById? then byId else current;
      if wanted.None? && !request.ResumeLatest? { return Failure("no such plan to resume"); }
      if wanted.Some? && wanted.value.status != Completed {
        var plan := new Plan.Resume(wanted.value);
        return Success((plan, true));
      }
      if wanted.Some? && !request.ResumeLatest? { return Failure("the plan is not resumable"); }
    }
    var plan := new Plan.Create();
    return Success((plan, false));
  }

  /**
   Resuming what a run left behind never weakens the gate: no mutation is forgotten and no proof is invented, so the run
   becomes one more link of the chain it belongs to.
   */
  method ResumeAfter(first: AgentRun, cfg: Config, usedTools: bool, ghost story: seq<RunRecord>)
    returns (second: AgentRun, ghost longer: seq<RunRecord>)
    requires first.Valid() && first.plan != null && first.plan.status != Completed && first.InChain(story)
    ensures fresh(second) && fresh(second.guard) && fresh(second.tracker) && second.plan != null && fresh(second.plan)
    ensures second.Valid() && second.Open() && second.resumed && !second.freshInspection
    ensures second.policy == first.policy && second.run == first.run && second.cfg == cfg
    ensures second.calls == [] && second.modelTurns == 0 && !second.followUpAsked
    ensures second.RunFlags() == Flags(second.mutationAtStart, second.verificationAtStart, false)
    ensures Carries(first.policy, first.mutationAtStart, first.verificationAtStart, first.calls,
                    second.mutationAtStart, second.verificationAtStart)
    ensures NoRecallCounted(first.policy, first.calls) ==> second.verificationAtStart == first.verificationSeen
    ensures longer == story + [RunRecord(first.calls, second.mutationAtStart, second.verificationAtStart)]
    ensures second.InChain(longer)
  {
    hide NoRecallCounted, ProgressFlags, Carries, RunMeans, CacheSound, CircuitHolds, Chained, LeftBy;
    hide AlwaysBounded, FailingSince, Remembers, NeverRepeated;
    first.ValidRunsKeepTheirPromises();
    var plan := new Plan.Resume(first.plan.stored);
    second := new AgentRun(cfg, first.policy, first.run, plan, true, usedTools, first.checkpoint, first.world);
    ChainGrows(first.policy, story, first.calls, second.mutationAtStart, second.verificationAtStart);
    longer := story + [RunRecord(first.calls, second.mutationAtStart, second.verificationAtStart)];
  }

  /**
   Run, and resume as long as the run pauses or fails, at most `rounds` times. When the last run completes with
   verification enforced, the last effect of everything all the runs did is proven.
   */
  method RunAndResume(first: AgentRun, cfg: Config, scripts: nat -> nat -> Turn, rounds: nat)
    returns (last: AgentRun, r: RunResult, ghost story: seq<RunRecord>)
    requires first.Valid() && first.Open() && first.modelTurns == 0 && !first.followUpAsked
    requires first.plan != null && first.InChain([]) && first.cfg == cfg
    modifies first, first.plan, first.guard, first.tracker
    ensures last.Valid() && last.Ended(r) && last.InChain(story) && last.cfg == cfg && last.policy == first.policy
    ensures r.status.RunCompleted? && cfg.enforceVerification ==>
              var all := Story(story) + last.calls;
              LastEffect(first.policy, all) >= 0 ==> Verified(first.policy, false, false, all)
  {
    hide Chained, LeftBy, Story, Verified, LastEffect;
    last, story := first, [];
    ghost var taken: nat;
    r, taken := last.Run(scripts(0));
    var i := 0;
    while i < rounds && !r.status.RunCompleted?
      invariant last.Valid() && last.Ended(r) && last.VerifiedWhenCompleted(r) && last.InChain(story)
      invariant last.cfg == cfg && last.policy == first.policy && last.plan != null
      invariant last != first ==> fresh(last) && fresh(last.plan) && fresh(last.guard) && fresh(last.tracker)
    {
      last, story := ResumeAfter(last, cfg, true, story);
      i := i + 1;
      r, taken := last.Run(scripts(i));
    }
    if r.status.RunCompleted? && cfg.enforceVerification { last.StoryIsVerified(story, r); }
  }

  /** A fresh run that need not change anything and is answered at once completes with that answer. */
  method AnsweredAtOnce(cfg: Config, policy: Policy, run: Runner, world: World) returns (agent: AgentRun, r: RunResult)
    requires !cfg.requireMutation && !cfg.mustUseTools && !cfg.hasGuard
    ensures fresh(agent) && r == RunResult(RunCompleted, ByText(false))
    ensures agent.modelTurns == 1 && agent.calls == [] && agent.world == world
  {
    hide AgentRun.Valid, AgentRun.Ended, AgentRun.PromisesKept, AgentRun.VerifiedWhenCompleted, RunsTo, LoopAfter;
    hide AgentRun.Open, IterationLimit;
    agent := new AgentRun(cfg, policy, run, null, false, false, false, world);
    var script := (k: nat) => Turn(false, false, Answer(Text(false, false, false), []), true);
    ghost var start, taken := agent.State(), 0;
    r, taken := agent.Run(script);
    FineFirstAnswerCompletes(agent.Settings(), start, script, taken, r);
  }
}
