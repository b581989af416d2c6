/**
 How the calls of a batch are answered (aicoder/agent_runtime.py, the tool loop of NativeLightRuntime._run_impl), as a
 function of the situation they meet, and what holds of every answer. The run of AgentRuntime does this step by step.
 */
module CallProcessing {
  import opened Wrappers
  import opened Tools
  import opened RunHistory
  import opened ResultCache
  import opened FailureTracking

  /** MAX_ITERATIONS, which the environment may set within these bounds. */
  type IterationCap = n: nat | 60 <= n <= 1000 witness 300

  const VERIFICATION_STALL_COUNT: nat := 5

  /** What a reused result is introduced with. */
  const REUSED: string :=
    "REUSED SUCCESSFUL TOOL RESULT FROM THIS RUN; identical non-mutating call was already executed.\n"

  /** Settings of a run that its promises depend on. */
  datatype Config = Config(
    cap: IterationCap,
    maxIterations: int,
    enforceVerification: bool,
    requireTest: bool,
    requireMutation: bool,
    mustUseTools: bool,
    needsAudit: bool,
    polling: bool,
    autonomousRecovery: bool,
    hasGuard: bool,
    hasEvidence: bool)

  /**
   One requested call with everything the environment decides about it. `reply` is the text the host itself answers
   with when it runs no tool.
   */
  datatype Request = Request(
    op: Operation,
    stopBefore: bool,
    hasSummary: bool,
    justifiesNoChange: bool,
    metaError: bool,
    allowed: bool,
    missingArguments: bool,
    hookBlocked: bool,
    sameEvidence: bool,
    evidenceRecorded: bool,
    reply: string)

  /** What one processed call contributes to its batch. */
  datatype Processed = Processed(op: Operation, result: string, isError: bool, stalled: bool)

  datatype RunStatus = RunCompleted | RunPaused | RunFailed

  /** Which way a run ended. */
  datatype Exit =
    | ByText(noChange: bool) | BySignal(noChange: bool) | ByDone
    | ByGuard | ByPause | ByYield | ByModelFailure

  predicate IsCompletion(exit: Exit) {
    exit.ByText? || exit.BySignal? || exit.ByDone?
  }

  datatype RunResult = RunResult(status: RunStatus, exit: Exit)

  const PAUSE: RunResult := RunResult(RunPaused, ByPause)

  /** The completion guard, where there is one, decides between completed and failed. */
  function Guarded(cfg: Config, exit: Exit, guardAccepts: bool): RunResult {
    if cfg.hasGuard && !guardAccepts then RunResult(RunFailed, ByGuard) else RunResult(RunCompleted, exit)
  }

  /** What stays the same during a run; `window` is how far back the loop guard looks. */
  datatype Setup = Setup(cfg: Config, policy: Policy, run: Runner, resumed: bool, window: nat)

  /** The requests of the host that were sent; the one for verification is withdrawn by every new effect. */
  datatype Requests = Requests(
    repair: bool,
    noChange: bool,
    verification: bool,
    tool: bool,
    audit: bool,
    implementation: bool)

  /** Everything the answer to a call depends on or moves. */
  datatype Situation = Situation(
    calls: Log,
    world: World,
    cache: Cache,
    blocked: Blocked,
    counts: Counts,
    flags: Flags,
    inspected: bool,
    inspections: nat,
    recordedReads: set<string>,
    sent: Requests)

  // ---- the gates ----

  /** A known mutation still lacks the verification the settings ask for. */
  predicate LacksProof(cfg: Config, f: Flags) {
    cfg.enforceVerification && f.mutation && !(f.verification && (cfg.requireTest ==> f.test))
  }

  predicate LacksChange(cfg: Config, f: Flags, justifiesNoChange: bool) {
    cfg.requireMutation && !f.mutation && !justifiesNoChange
  }

  predicate LacksAudit(cfg: Config, f: Flags, toolWasCalled: bool, audited: bool) {
    f.mutation && toolWasCalled && !audited && cfg.needsAudit
  }

  /** The runtime completion call comes alone, with a summary, and no gate but the audit is closed. */
  predicate Acceptable(cfg: Config, now: Situation, req: Request, sole: bool) {
    sole && req.hasSummary && !LacksChange(cfg, now.flags, req.justifiesNoChange) && !LacksProof(cfg, now.flags)
  }

  /** The completion call asks for the audit instead of completing. */
  predicate AsksForAudit(cfg: Config, now: Situation, req: Request, sole: bool) {
    Acceptable(cfg, now, req, sole) && cfg.enforceVerification && LacksAudit(cfg, now.flags, true, now.sent.audit)
  }

  /** The call completes the run. */
  predicate Completes(cfg: Config, now: Situation, req: Request, sole: bool) {
    req.op.tool.RuntimeComplete? && Acceptable(cfg, now, req, sole) && !AsksForAudit(cfg, now, req, sole)
  }

  // ---- one call ----

  /** The cache after an execution: cleared by a successful state mutation, extended by any other success. */
  function CacheAfter(p: Policy, cache: Cache, op: Operation, outcome: Outcome): Cache {
    if outcome.isError then cache
    else if IsStateMutation(p, op) then []
    else Put(cache, op, outcome.result)
  }

  /** A call is stopped by a hard time-out, or when it meets its failure for the third time without changing state. */
  predicate StopsRetrying(p: Policy, op: Operation, outcome: Outcome, count: nat) {
    (op.tool.CommandRunner? && p.saysHardTimeout(outcome.result)) || (count >= 3 && !IsStateMutation(p, op))
  }

  /** The call ran or was turned down, and failed. */
  predicate Failed(e: CallEvent) {
    (e.Executed? || e.TurnedDown?) && e.outcome.isError
  }

  /** The failure is a rejection by the user, which pauses the run. */
  predicate Rejected(p: Policy, e: CallEvent) {
    Failed(e) && p.saysRejected(e.outcome.result)
  }

  function SignatureOf(p: Policy, e: CallEvent): string
    requires Failed(e)
  {
    p.diagnose(e.outcome.result).signature
  }

  function CountsAfter(p: Policy, counts: Counts, e: CallEvent): Counts {
    if Failed(e) then counts[SignatureOf(p, e) := CountIn(counts, SignatureOf(p, e)) + 1] else counts
  }

  /** The circuit after a call: opened for a call that is stopped, closed by a successful state mutation. */
  function BlockedAfter(p: Policy, blocked: Blocked, counts: Counts, e: CallEvent): Blocked {
    if ClosesTheCircuit(p, e) then map[]
    else if Failed(e) && StopsRetrying(p, e.op, e.outcome, CountIn(counts, SignatureOf(p, e)) + 1)
    then blocked[e.op := SignatureOf(p, e)]
    else blocked
  }

  lemma AfterFailure(p: Policy, f: Flags, blocked: Blocked, counts: Counts, e: CallEvent)
    ensures !Failed(e) ==>
              && CountsAfter(p, counts, e) == counts && !ChecksStall(p, f, counts, e)
              && BlockedAfter(p, blocked, counts, e) == if ClosesTheCircuit(p, e) then map[] else blocked
    ensures Failed(e) ==>
              var s, count := SignatureOf(p, e), CountIn(counts, SignatureOf(p, e)) + 1;
              && CountsAfter(p, counts, e) == counts[s := count]
              && BlockedAfter(p, blocked, counts, e) == (if StopsRetrying(p, e.op, e.outcome, count)
                                                         then blocked[e.op := s] else blocked)
              && (ChecksStall(p, f, counts, e) <==>
                    f.mutation && IsBehaviorCheck(p, e.op) && count >= VERIFICATION_STALL_COUNT)
  {
  }

  /** How many inspections the run made without a mutation, where one is required. */
  function InspectionsAfter(cfg: Config, p: Policy, inspections: nat, f: Flags, e: CallEvent): nat {
    var f' := NextFlags(p, f, e);
    if e.Executed? && f'.mutation && !f.mutation then 0
    else if (Succeeded(e) || e.Reused?) && cfg.requireMutation && !f'.mutation && IsInspection(e.op.tool)
    then inspections + 1
    else inspections
  }

  /** An authoritative check of a known mutation failed alike for the fifth time. */
  predicate ChecksStall(p: Policy, f: Flags, counts: Counts, e: CallEvent) {
    && Failed(e) && f.mutation && IsBehaviorCheck(p, e.op)
    && CountIn(counts, SignatureOf(p, e)) + 1 >= VERIFICATION_STALL_COUNT
  }

  /** Whether the call is denied before anything runs. */
  predicate Denied(s: Setup, inspected: bool, req: Request) {
    || !req.allowed || req.missingArguments || req.hookBlocked
    || (s.resumed && !inspected && IsRisky(s.policy, req.op))
  }

  /** The read is of a range whose recorded content is still the file's. */
  predicate Recallable(s: Setup, recordedReads: set<string>, req: Request) {
    req.op.tool.FileRead? && s.cfg.hasEvidence && s.policy.readKey(req.op) in recordedReads && req.sameEvidence
  }

  /** What becomes of a call of an ordinary tool: circuit, reuse, denial, recall or execution, in this order. */
  function ToolEvent(s: Setup, now: Situation, req: Request): CallEvent {
    var op := req.op;
    if req.allowed && !IsStateMutation(s.policy, op) && op in now.blocked then NotRun(op)
    else if req.allowed && !s.cfg.polling && !s.policy.risk(op).mutation && Lookup(now.cache, op).Some?
    then Reused(op, Lookup(now.cache, op).value, now.world)
    else if Denied(s, now.inspected, req) then TurnedDown(op, Outcome(req.reply, true), req.allowed)
    else if Recallable(s, now.recordedReads, req) then Recalled(op)
    else Executed(op, s.run(op, now.world).outcome)
  }

  predicate IsHostTool(tool: Tool) {
    tool.RuntimeComplete? || tool.MetaTool?
  }

  function Event(s: Setup, now: Situation, req: Request): CallEvent {
    if IsHostTool(req.op.tool) then NotRun(req.op) else ToolEvent(s, now, req)
  }

  /** The ranges whose digest was recorded after a successful read. */
  function RecordedAfter(s: Setup, recordedReads: set<string>, e: CallEvent, evidenceRecorded: bool): set<string> {
    if Succeeded(e) && e.op.tool.FileRead? && s.cfg.hasEvidence && evidenceRecorded
    then recordedReads + {s.policy.readKey(e.op)}
    else recordedReads
  }

  /** The situation after a call that became the given event. */
  function Moved(s: Setup, now: Situation, e: CallEvent): Situation {
    Situation(
      now.calls + [e],
      if e.Executed? then s.run(e.op, now.world).world else now.world,
      if e.Executed? then CacheAfter(s.policy, now.cache, e.op, e.outcome) else now.cache,
      BlockedAfter(s.policy, now.blocked, now.counts, e),
      CountsAfter(s.policy, now.counts, e),
      NextFlags(s.policy, now.flags, e),
      now.inspected || IsFreshInspection(e),
      InspectionsAfter(s.cfg, s.policy, now.inspections, now.flags, e),
      now.recordedReads,
      now.sent.(verification := now.sent.verification && !IsEffect(s.policy, e)))
  }

  /** The situation after a call that does not complete the run. */
  function After(s: Setup, now: Situation, req: Request, sole: bool): (r: Situation)
    ensures r.calls == now.calls + [Event(s, now, req)]
  {
    var e := Event(s, now, req);
    var audit := now.sent.audit || (req.op.tool.RuntimeComplete? && AsksForAudit(s.cfg, now, req, sole));
    Moved(s, now.(sent := now.sent.(audit := audit)), e).(
      recordedReads := RecordedAfter(s, now.recordedReads, e, req.evidenceRecorded))
  }

  /** What the model is told about a call that ran or was turned down. */
  function OutcomeTold(p: Policy, now: Situation, e: CallEvent): Processed
    requires e.Executed? || e.TurnedDown?
  {
    Processed(e.op, e.outcome.result, e.outcome.isError, ChecksStall(p, now.flags, now.counts, e))
  }

  /** What the model is told about a call. */
  function Told(s: Setup, now: Situation, req: Request): Processed {
    var e := Event(s, now, req);
    match e
    case NotRun(op) => Processed(op, req.reply, !op.tool.MetaTool? || req.metaError, false)
    case Reused(op, result, _) => Processed(op, REUSED + result, false, false)
    case Recalled(op) => Processed(op, req.reply, false, false)
    case _ => OutcomeTold(s.policy, now, e)
  }

  /** After a call of an ordinary tool: only an execution records a read, and no audit is asked for. */
  lemma AfterTool(s: Setup, now: Situation, req: Request, sole: bool)
    requires !req.op.tool.RuntimeComplete?
    ensures var e := Event(s, now, req);
            After(s, now, req, sole) ==
            if e.Executed? then Moved(s, now, e).(recordedReads :=
                                  RecordedAfter(s, now.recordedReads, e, req.evidenceRecorded))
            else Moved(s, now, e)
  {
  }

  // ---- the calls of a batch ----

  /** What a batch leads to: the situation after it, what the model is told, and how the run ends if it does. */
  datatype BatchOutcome = BatchOutcome(now: Situation, told: seq<Processed>, end: Option<RunResult>)

  /** One call of a batch, unless the operator stops before it. */
  function OneCall(s: Setup, now: Situation, req: Request, sole: bool, guardAccepts: bool): BatchOutcome {
    if req.stopBefore then BatchOutcome(now, [], Some(PAUSE))
    else if Completes(s.cfg, now, req, sole)
    then BatchOutcome(now, [], Some(Guarded(s.cfg, BySignal(req.justifiesNoChange), guardAccepts)))
    else if Rejected(s.policy, Event(s, now, req)) then BatchOutcome(After(s, now, req, sole), [], Some(PAUSE))
    else BatchOutcome(After(s, now, req, sole), [Told(s, now, req)], None)
  }

  lemma StoppedCall(s: Setup, now: Situation, req: Request, sole: bool, guardAccepts: bool)
    requires req.stopBefore
    ensures OneCall(s, now, req, sole, guardAccepts) == BatchOutcome(now, [], Some(PAUSE))
  {
  }

  lemma OrdinaryCall(s: Setup, now: Situation, req: Request, sole: bool, guardAccepts: bool)
    requires !req.op.tool.RuntimeComplete? && !req.stopBefore
    ensures var after := After(s, now, req, false);
            OneCall(s, now, req, sole, guardAccepts) ==
            if Rejected(s.policy, Event(s, now, req)) then BatchOutcome(after, [], Some(PAUSE))
            else BatchOutcome(after, [Told(s, now, req)], None)
    ensures req.op.tool.MetaTool? ==>
              && !Rejected(s.policy, Event(s, now, req))
              && After(s, now, req, false) == Moved(s, now, NotRun(req.op))
              && Told(s, now, req) == Processed(req.op, req.reply, req.metaError, false)
  {
  }

  lemma CompletionCall(s: Setup, now: Situation, req: Request, sole: bool, guardAccepts: bool)
    requires req.op.tool.RuntimeComplete? && !req.stopBefore
    ensures OneCall(s, now, req, sole, guardAccepts) ==
            if Completes(s.cfg, now, req, sole)
            then BatchOutcome(now, [], Some(Guarded(s.cfg, BySignal(req.justifiesNoChange), guardAccepts)))
            else BatchOutcome(After(s, now, req, sole), [Told(s, now, req)], None)
  {
  }

  lemma DeclinedCompletion(s: Setup, now: Situation, req: Request, sole: bool)
    requires req.op.tool.RuntimeComplete?
    ensures var audit := now.sent.audit || AsksForAudit(s.cfg, now, req, sole);
            After(s, now, req, sole) == Moved(s, now.(sent := now.sent.(audit := audit)), NotRun(req.op))
    ensures Told(s, now, req) == Processed(req.op, req.reply, true, false)
  {
  }

  /** The calls in order, until one ends the run. */
  function Batch(s: Setup, now: Situation, reqs: seq<Request>, sole: bool, guardAccepts: bool): (r: BatchOutcome)
    ensures now.calls <= r.now.calls
  {
    if reqs == [] then BatchOutcome(now, [], None)
    else
      var b := Batch(s, now, reqs[..|reqs| - 1], sole, guardAccepts);
      if b.end.Some? then b
      else
        var one := OneCall(s, b.now, reqs[|reqs| - 1], sole, guardAccepts);
        BatchOutcome(one.now, b.told + one.told, one.end)
  }

  lemma NoCallYet(s: Setup, now: Situation, reqs: seq<Request>, sole: bool, guardAccepts: bool)
    ensures Batch(s, now, reqs[..0], sole, guardAccepts) == BatchOutcome(now, [], None)
  {
  }

  lemma OneMoreCall(s: Setup, now: Situation, reqs: seq<Request>, sole: bool, guardAccepts: bool, k: nat)
    requires k < |reqs| && Batch(s, now, reqs[..k], sole, guardAccepts).end.None?
    ensures var b := Batch(s, now, reqs[..k], sole, guardAccepts);
            var one := OneCall(s, b.now, reqs[k], sole, guardAccepts);
            Batch(s, now, reqs[..k + 1], sole, guardAccepts) == BatchOutcome(one.now, b.told + one.told, one.end)
  {
    assert reqs[..k + 1][..k] == reqs[..k];
  }

  /** No call is looked at after the one that ended the run. */
  lemma {:induction false} EndedBatch(s: Setup, now: Situation, reqs: seq<Request>, sole: bool, guardAccepts: bool,
                                      k: nat)
    requires k <= |reqs| && Batch(s, now, reqs[..k], sole, guardAccepts).end.Some?
    ensures Batch(s, now, reqs, sole, guardAccepts) == Batch(s, now, reqs[..k], sole, guardAccepts)
  {
    if k == |reqs| {
      assert reqs[..k] == reqs;
    } else {
      assert reqs[..|reqs| - 1][..k] == reqs[..k];
      EndedBatch(s, now, reqs[..|reqs| - 1], sole, guardAccepts, k);
    }
  }

  // ---- what holds of every answer ----

  /** The call is classed mutating or destructive, in a resumed run that has inspected nothing yet. */
  predicate TooEarly(s: Setup, now: Situation, op: Operation) {
    s.resumed && !now.inspected && (s.policy.risk(op).mutation || s.policy.risk(op).destructive)
  }

  /** What happens to a call of an ordinary tool, condition by condition. */
  lemma AnsweredExactlyWhen(s: Setup, now: Situation, req: Request)
    requires !req.op.tool.RuntimeComplete? && !req.op.tool.MetaTool?
    ensures var e, op, risk := Event(s, now, req), req.op, s.policy.risk(req.op);
            var key := s.policy.readKey(op);
            var stopped := req.allowed && op in now.blocked && (risk.mutation ==> IsBehaviorCheck(s.policy, op));
            var known := req.allowed && !s.cfg.polling && !risk.mutation
                         && exists k :: 0 <= k < |now.cache| && now.cache[k].op == op;
            var refused := !req.allowed || req.missingArguments || req.hookBlocked || TooEarly(s, now, op);
            var seen := op.tool.FileRead? && s.cfg.hasEvidence && key in now.recordedReads && req.sameEvidence;
            && e.op == op
            && (e.NotRun? <==> stopped)
            && (e.Reused? <==> !stopped && known)
            && (e.TurnedDown? <==> !stopped && !known && refused)
            && (e.Recalled? <==> !stopped && !known && !refused && seen)
            && (e.Executed? <==> !stopped && !known && !refused && !seen)
            && (e.Executed? ==> e.outcome == s.run(op, now.world).outcome)
            && (e.Reused? ==> Lookup(now.cache, op) == Some(e.result) && e.world == now.world)
            && (e.TurnedDown? ==> e.outcome.isError && e.outcome.result == req.reply && e.allowed == req.allowed)
  {
    if k :| 0 <= k < |now.cache| && now.cache[k].op == req.op {
      assert Position(now.cache, req.op).Some?;
    }
  }

  /**
   The completion call completes the run exactly when it comes alone and with a summary, a required mutation was made or
   its absence is justified, a mutation is verified (and tested) where that is enforced, and the audit is done where it is
   due; when only the audit is missing, it is asked for.
   */
  lemma SignalCompletesExactlyWhen(s: Setup, now: Situation, req: Request, sole: bool)
    requires req.op.tool.RuntimeComplete?
    ensures var cfg, f := s.cfg, now.flags;
            var open := && sole && req.hasSummary && (cfg.requireMutation ==> f.mutation || req.justifiesNoChange)
                        && (cfg.enforceVerification && f.mutation ==> f.verification && (cfg.requireTest ==> f.test));
            var due := cfg.enforceVerification && f.mutation && cfg.needsAudit && !now.sent.audit;
            && (Completes(cfg, now, req, sole) <==> open && !due)
            && After(s, now, req, sole).sent == if open && due then now.sent.(audit := true) else now.sent
  {
  }

  /** A successful change of state empties cache and circuit if it is classed as mutating, and withdraws the request. */
  lemma AfterAChange(s: Setup, now: Situation, req: Request, sole: bool)
    requires req.op.tool != Test && req.op.tool != Lint
    requires req.op.tool.CommandRunner? ==> !s.policy.commandChecks(req.op)
    requires Event(s, now, req).Executed? && !Event(s, now, req).outcome.isError
    ensures var next, p := After(s, now, req, sole), s.policy;
            && (p.risk(req.op).mutation ==> next.cache == [] && next.blocked == map[])
            && (!p.risk(req.op).mutation ==> Lookup(next.cache, req.op) == Some(Event(s, now, req).outcome.result)
                                             || |now.cache| > 64 || !Distinct(now.cache))
            && next.sent == now.sent.(verification := now.sent.verification && !p.effect(req.op))
  {
    if |now.cache| <= 64 && Distinct(now.cache) {
      PutThenLookup(now.cache, req.op, Event(s, now, req).outcome.result, req.op);
    }
  }

  /** The host's own tools run nothing: meta tools and the completion call leave the world and every result alone. */
  lemma HostToolsRunNothing(s: Setup, now: Situation, req: Request, sole: bool)
    requires req.op.tool.RuntimeComplete? || req.op.tool.MetaTool?
    ensures var next := After(s, now, req, sole);
            && next.calls == now.calls + [NotRun(req.op)] && next.world == now.world && next.cache == now.cache
            && next.flags == now.flags && next.counts == now.counts && next.blocked == now.blocked
            && next.inspected == now.inspected && next.recordedReads == now.recordedReads
            && Told(s, now, req).result == req.reply
  {
  }

  /** The model is told what was logged: the outcome, a kept result with its introduction, or the text of the host. */
  lemma ToldWhatHappened(s: Setup, now: Situation, req: Request)
    ensures var e, t := Event(s, now, req), Told(s, now, req);
            && t.op == req.op
            && (e.Executed? || e.TurnedDown? ==> t.result == e.outcome.result && (t.isError <==> e.outcome.isError))
            && (e.Reused? ==> t.result == REUSED + e.result && !t.isError)
            && (e.Recalled? ==> t.result == req.reply && !t.isError)
            && (e.NotRun? ==> t.result == req.reply && (t.isError <==> !req.op.tool.MetaTool? || req.metaError))
            && (t.stalled <==>
                  && (e.Executed? || e.TurnedDown?) && t.isError && now.flags.mutation
                  && (req.op.tool == Test || req.op.tool == Lint
                      || (req.op.tool.CommandRunner? && s.policy.commandChecks(req.op)))
                  && CountIn(now.counts, s.policy.diagnose(t.result).signature) >= 4)
  {
  }

  /**
   The calls of a batch are logged in the order they were requested. A batch that does not end the run answers all of
   them; no request asks for a stop then, and no result is a rejection.
   */
  lemma {:induction false} BatchFollowsTheRequests(s: Setup, now: Situation, reqs: seq<Request>, sole: bool,
                                                   guardAccepts: bool)
    ensures Follows(s.policy, now, reqs, Batch(s, now, reqs, sole, guardAccepts))
  {
    hide Event, Told, Rejected, Completes, After, Follows;
    if reqs == [] {
      FollowsNothing(s.policy, now, reqs);
    } else {
      var front, last := reqs[..|reqs| - 1], reqs[|reqs| - 1];
      BatchFollowsTheRequests(s, now, front, sole, guardAccepts);
      var b := Batch(s, now, front, sole, guardAccepts);
      if b.end.Some? {
        FollowsStill(s.policy, now, reqs, b);
      } else {
        var one := OneCall(s, b.now, last, sole, guardAccepts);
        LoggedUnderItsName(s, b.now, last);
        CompletesByItself(s.cfg, b.now, last, sole);
        FollowsFurther(s.policy, now, reqs, b, one);
      }
    }
  }

  /** What a batch leads to follows its requests. */
  predicate Follows(p: Policy, now: Situation, reqs: seq<Request>, b: BatchOutcome) {
    && now.calls <= b.now.calls
    && var logged, n := b.now.calls[|now.calls|..], |b.told|;
       && n <= |logged| <= |reqs|
       && (forall k | 0 <= k < |logged| :: logged[k].op == reqs[k].op && !reqs[k].stopBefore)
       && (forall k | 0 <= k < n :: b.told[k].op == reqs[k].op)
       && (forall k | 0 <= k < n :: !Rejected(p, logged[k]))
       && match b.end
          case None => n == |reqs| && n == |logged|
          case Some(r) =>
            n < |reqs| && if r.exit.ByPause? then
                            r == PAUSE && if |logged| == n then reqs[n].stopBefore
                                          else |logged| == n + 1 && Rejected(p, logged[n])
                          else |logged| == n && reqs[n].op.tool.RuntimeComplete?
  }

  lemma FollowsNothing(p: Policy, now: Situation, reqs: seq<Request>)
    requires reqs == []
    ensures Follows(p, now, reqs, BatchOutcome(now, [], None))
  {
    hide Rejected;
  }

  lemma FollowsStill(p: Policy, now: Situation, reqs: seq<Request>, b: BatchOutcome)
    requires reqs != [] && Follows(p, now, reqs[..|reqs| - 1], b) && b.end.Some?
    ensures Follows(p, now, reqs, b)
  {
    hide Rejected;
    var front := reqs[..|reqs| - 1];
    assert forall k | 0 <= k < |front| :: front[k] == reqs[k];
  }

  lemma FollowsFurther(p: Policy, now: Situation, reqs: seq<Request>, b: BatchOutcome, one: BatchOutcome)
    requires reqs != [] && Follows(p, now, reqs[..|reqs| - 1], b) && b.end.None?
    requires var last := reqs[|reqs| - 1];
             match one.end
             case None =>
               && !last.stopBefore && |one.told| == 1 && one.told[0].op == last.op
               && |one.now.calls| == |b.now.calls| + 1 && b.now.calls < one.now.calls
               && one.now.calls[|b.now.calls|].op == last.op && !Rejected(p, one.now.calls[|b.now.calls|])
             case Some(r) =>
               && one.told == []
               && if one.now.calls == b.now.calls then if r.exit.ByPause? then r == PAUSE && last.stopBefore
                                                       else last.op.tool.RuntimeComplete?
                  else
                    && r == PAUSE && !last.stopBefore && |one.now.calls| == |b.now.calls| + 1
                    && b.now.calls < one.now.calls && one.now.calls[|b.now.calls|].op == last.op
                    && Rejected(p, one.now.calls[|b.now.calls|])
    ensures Follows(p, now, reqs, BatchOutcome(one.now, b.told + one.told, one.end))
  {
    hide Rejected;
    var front, n := reqs[..|reqs| - 1], |now.calls|;
    var logged, all := b.now.calls[n..], one.now.calls[n..];
    assert forall k | 0 <= k < |front| :: front[k] == reqs[k];
    assert forall k | 0 <= k < |logged| :: all[k] == logged[k];
    if one.now.calls != b.now.calls { assert all[|logged|] == one.now.calls[|b.now.calls|]; }
  }

  lemma LoggedUnderItsName(s: Setup, now: Situation, req: Request)
    ensures Event(s, now, req).op == req.op && Told(s, now, req).op == req.op
  {
  }

  lemma CompletesByItself(cfg: Config, now: Situation, req: Request, sole: bool)
    ensures Completes(cfg, now, req, sole) ==> req.op.tool.RuntimeComplete? && sole
  {
  }

  /** The world after the executed calls of a log. */
  function Replay(run: Runner, world: World, log: Log): World {
    if log == [] then world
    else
      var before, e := Replay(run, world, log[..|log| - 1]), log[|log| - 1];
      if e.Executed? then run(e.op, before).world else before
  }

  /** Every logged outcome is what the tool gave in the world of that moment, and nothing else moved the world. */
  predicate IsWhatRan(run: Runner, world: World, log: Log, world': World) {
    && world' == Replay(run, world, log)
    && forall k | 0 <= k < |log| && log[k].Executed? ::
         log[k].outcome == run(log[k].op, Replay(run, world, log[..k])).outcome
  }

  lemma RanOneMore(run: Runner, world: World, log: Log, world': World, e: CallEvent)
    requires IsWhatRan(run, world, log, world') && (e.Executed? ==> e.outcome == run(e.op, world').outcome)
    ensures IsWhatRan(run, world, log + [e], if e.Executed? then run(e.op, world').world else world')
  {
    var all := log + [e];
    Appended(log, e);
    forall k | 0 <= k < |all| && all[k].Executed?
      ensures all[k].outcome == run(all[k].op, Replay(run, world, all[..k])).outcome
    {
      if k < |log| { assert all[..k] == log[..k]; }
    }
  }

  /** How often a failure family was met. */
  function FailuresWith(p: Policy, log: Log, signature: string): nat {
    if log == [] then 0
    else
      var e := log[|log| - 1];
      FailuresWith(p, log[..|log| - 1], signature) + if Failed(e) && SignatureOf(p, e) == signature then 1 else 0
  }

  /** The call met a hard time-out. */
  predicate TimedOut(p: Policy, log: Log, op: Operation) {
    op.tool.CommandRunner? && exists k :: 0 <= k < |log| && Failed(log[k]) && log[k].op == op
                                          && p.saysHardTimeout(log[k].outcome.result)
  }

  /**
   The counts are those of the log, and a call is stopped only after a hard time-out of its own or the third failure of
   its family.
   */
  ghost predicate CircuitTells(p: Policy, now: Situation) {
    && (forall s: string :: CountIn(now.counts, s) == FailuresWith(p, now.calls, s))
    && (forall op | op in now.blocked ::
          TimedOut(p, now.calls, op) || FailuresWith(p, now.calls, now.blocked[op]) >= 3)
  }

  lemma FailuresOneMore(p: Policy, log: Log, e: CallEvent, signature: string)
    ensures FailuresWith(p, log + [e], signature) ==
            FailuresWith(p, log, signature) + if Failed(e) && SignatureOf(p, e) == signature then 1 else 0
  {
    Appended(log, e);
  }

  lemma TimedOutOneMore(p: Policy, log: Log, e: CallEvent, op: Operation)
    requires TimedOut(p, log, op) || (op.tool.CommandRunner? && Failed(e) && e.op == op
                                      && p.saysHardTimeout(e.outcome.result))
    ensures TimedOut(p, log + [e], op)
  {
    var all := log + [e];
    assert all[|log|] == e;
    if TimedOut(p, log, op) {
      var k :| 0 <= k < |log| && Failed(log[k]) && log[k].op == op && p.saysHardTimeout(log[k].outcome.result);
      assert all[k] == log[k];
    }
  }

  lemma CircuitTellsOn(s: Setup, now: Situation, e: CallEvent)
    requires CircuitTells(s.policy, now)
    ensures CircuitTells(s.policy, Moved(s, now, e))
  {
    hide TimedOut, FailuresWith, CacheAfter, NextFlags, InspectionsAfter;
    var p, next := s.policy, Moved(s, now, e);
    forall t: string
      ensures CountIn(next.counts, t) == FailuresWith(p, next.calls, t)
    {
      FailuresOneMore(p, now.calls, e, t);
    }
    forall op | op in next.blocked
      ensures TimedOut(p, next.calls, op) || FailuresWith(p, next.calls, next.blocked[op]) >= 3
    {
      FailuresOneMore(p, now.calls, e, next.blocked[op]);
      if op in now.blocked && now.blocked[op] == next.blocked[op] && TimedOut(p, now.calls, op) {
        TimedOutOneMore(p, now.calls, e, op);
      } else if Failed(e) && e.op == op && op.tool.CommandRunner? && p.saysHardTimeout(e.outcome.result) {
        TimedOutOneMore(p, now.calls, e, op);
      }
    }
  }

  /** How many inspections succeeded or were answered from the cache. */
  function Inspections(log: Log): nat {
    if log == [] then 0
    else
      var e := log[|log| - 1];
      var inspects := e.op.tool == FileRead || e.op.tool.OtherInspection?;
      Inspections(log[..|log| - 1]) + if inspects && (e.Reused? || (e.Executed? && !e.outcome.isError)) then 1 else 0
  }

  /** The range was read before, successfully. */
  predicate WasRead(p: Policy, log: Log, key: string) {
    exists k :: 0 <= k < |log| && log[k].Executed? && !log[k].outcome.isError && log[k].op.tool == FileRead
                && p.readKey(log[k].op) == key
  }

  /**
   While a required mutation is missing, every inspection is counted; and what counts as read before was read before.
   */
  ghost predicate ReadsTell(s: Setup, now: Situation) {
    && (s.cfg.requireMutation && !now.flags.mutation ==> now.inspections == Inspections(now.calls))
    && (forall key | key in now.recordedReads :: WasRead(s.policy, now.calls, key))
  }

  lemma ReadsTellOn(s: Setup, now: Situation, req: Request, sole: bool)
    requires ReadsTell(s, now)
    ensures ReadsTell(s, After(s, now, req, sole))
  {
    hide AsksForAudit, CacheAfter, BlockedAfter, CountsAfter, Event, IsBehaviorCheck, SelfVerifies;
    var e, next := Event(s, now, req), After(s, now, req, sole);
    Appended(now.calls, e);
    forall key | key in next.recordedReads
      ensures WasRead(s.policy, next.calls, key)
    {
      if key in now.recordedReads {
        var k :| 0 <= k < |now.calls| && now.calls[k].Executed? && !now.calls[k].outcome.isError
                 && now.calls[k].op.tool == FileRead && s.policy.readKey(now.calls[k].op) == key;
        assert next.calls[k] == now.calls[k];
      } else {
        assert next.calls[|now.calls|] == e;
      }
    }
  }

  /** What the log tells of the situation, seen from the world a run started in. */
  ghost predicate LogTells(s: Setup, world: World, now: Situation) {
    CircuitTells(s.policy, now) && IsWhatRan(s.run, world, now.calls, now.world) && ReadsTell(s, now)
  }

  lemma LogTellsOn(s: Setup, world: World, now: Situation, req: Request, sole: bool)
    requires LogTells(s, world, now)
    ensures LogTells(s, world, After(s, now, req, sole))
  {
    hide CircuitTells, IsWhatRan, ReadsTell, After, Event;
    CircuitAfter(s, now, req, sole);
    ReadsTellOn(s, now, req, sole);
    WorldAfter(s, now, req, sole);
    RanOneMore(s.run, world, now.calls, now.world, Event(s, now, req));
  }

  lemma WorldAfter(s: Setup, now: Situation, req: Request, sole: bool)
    ensures var e := Event(s, now, req);
            && After(s, now, req, sole).world == (if e.Executed? then s.run(e.op, now.world).world else now.world)
            && (e.Executed? ==> e.outcome == s.run(e.op, now.world).outcome)
  {
    hide AsksForAudit, CacheAfter, BlockedAfter, CountsAfter, NextFlags, InspectionsAfter;
  }

  lemma CircuitAfter(s: Setup, now: Situation, req: Request, sole: bool)
    requires CircuitTells(s.policy, now)
    ensures CircuitTells(s.policy, After(s, now, req, sole))
  {
    hide CircuitTells, CacheAfter, BlockedAfter, CountsAfter, NextFlags, InspectionsAfter, AsksForAudit, Event;
    var e := Event(s, now, req);
    CircuitTellsOn(s, now, e);
    SameCircuit(s.policy, Moved(s, now, e), After(s, now, req, sole));
  }

  lemma SameCircuit(p: Policy, now: Situation, next: Situation)
    requires CircuitTells(p, now)
    requires next.calls == now.calls && next.counts == now.counts && next.blocked == now.blocked
    ensures CircuitTells(p, next)
  {
  }

  lemma {:induction false} BatchTells(s: Setup, world: World, now: Situation, reqs: seq<Request>, sole: bool,
                                      guardAccepts: bool)
    requires LogTells(s, world, now)
    ensures LogTells(s, world, Batch(s, now, reqs, sole, guardAccepts).now)
  {
    hide LogTells, After, Event, Told, Rejected, Completes;
    if reqs != [] {
      BatchTells(s, world, now, reqs[..|reqs| - 1], sole, guardAccepts);
      var b := Batch(s, now, reqs[..|reqs| - 1], sole, guardAccepts);
      LogTellsOn(s, world, b.now, reqs[|reqs| - 1], sole);
    }
  }
}
