/**
 What one turn of the agent run loop makes of the state it meets (aicoder/agent_runtime.py,
 NativeLightRuntime._run_impl), and how the turns of a script make up a run. AgentRuntime does this step by step.
 */
module RunProtocol {
  import opened Wrappers
  import opened Tools
  import opened RunHistory
  import opened LoopGuard
  import opened CallProcessing

  const GRACE_TURNS: nat := 2
  const SEMANTIC_STALL_REPEATS: nat := 4
  const INSPECTIONS_BEFORE_NUDGE: nat := 4

  /** What a text tells the loop: unusable (empty or broken protocol), beginning with DONE, or justifying no change. */
  datatype Text = Text(unusable: bool, saysDone: bool, justifiesNoChange: bool)

  datatype ModelReply = Interrupted | Broken(retryable: bool) | Answer(text: Text, calls: seq<Request>)

  datatype Turn = Turn(handsOver: bool, stops: bool, reply: ModelReply, guardAccepts: bool)

  /** What the loop guard makes of a requested batch. */
  datatype Admission = Admitted | Nudged | Refused

  /** What the loop guard remembers. */
  datatype Memory = Memory(
    last: seq<Operation>,
    consecutive: nat,
    recent: seq<Fingerprint>,
    bags: seq<multiset<string>>)

  /** What an answer without calls leads to. */
  datatype Followup = Asked | Hopeless | Satisfied

  /** Everything a turn depends on or moves. */
  datatype Loop = Loop(now: Situation, memory: Memory, toolWasCalled: bool)

  /** What a turn leads to: the state after it, and how the run ends if it does. */
  datatype TurnOutcome = TurnOutcome(loop: Loop, end: Option<RunResult>)

  /** `max(1, min(MAX_ITERATIONS, requested or MAX_ITERATIONS))`. */
  function IterationLimit(cfg: Config): (n: nat)
    ensures 1 <= n <= cfg.cap
    ensures 1 <= cfg.maxIterations <= cfg.cap ==> n == cfg.maxIterations
    ensures cfg.maxIterations == 0 || cfg.maxIterations > cfg.cap ==> n == cfg.cap
    ensures cfg.maxIterations < 0 ==> n == 1
  {
    var wanted := if cfg.maxIterations == 0 then cfg.cap else cfg.maxIterations;
    if wanted < 1 then 1 else if wanted > cfg.cap then cfg.cap else wanted
  }

  // ---- an answer without calls ----

  /** A request of the host is sent once; the second time there is no hope. */
  function Once(before: bool): Followup {
    if before then Hopeless else Asked
  }

  /** What the host asks for after an answer without calls: the first thing the answer lacks. */
  function Ask(cfg: Config, f: Flags, toolWasCalled: bool, sent: Requests, text: Text): (Followup, Requests) {
    if text.unusable then (Once(sent.repair), sent.(repair := true))
    else if LacksChange(cfg, f, text.justifiesNoChange) then (Once(sent.noChange), sent.(noChange := true))
    else if LacksProof(cfg, f) then (Once(sent.verification), sent.(verification := true))
    else if cfg.mustUseTools && !toolWasCalled && !sent.tool then (Asked, sent.(tool := true))
    else if cfg.enforceVerification && LacksAudit(cfg, f, toolWasCalled, sent.audit) then (Asked, sent.(audit := true))
    else (Satisfied, sent)
  }

  /** An answer that lacks nothing completes the run. */
  function TextEnd(cfg: Config, f: Flags, toolWasCalled: bool, sent: Requests, text: Text,
                   guardAccepts: bool): (Requests, Option<RunResult>)
  {
    var (asked, sent') := Ask(cfg, f, toolWasCalled, sent, text);
    match asked
    case Asked => (sent', None)
    case Hopeless => (sent', Some(PAUSE))
    case Satisfied => (sent', Some(Guarded(cfg, ByText(text.justifiesNoChange), guardAccepts)))
  }

  function TextAnswer(s: Setup, l: Loop, text: Text, guardAccepts: bool): TurnOutcome {
    var (sent, end) := TextEnd(s.cfg, l.now.flags, l.toolWasCalled, l.now.sent, text, guardAccepts);
    TurnOutcome(l.(now := l.now.(sent := sent)), end)
  }

  // ---- an answer with calls ----

  /** What the loop guard makes of a batch requested for the given time in a row. */
  function AdmissionOf(cfg: Config, times: nat, mutating: bool): Admission {
    if times < 2 || (times <= 3 && cfg.polling && !mutating) then Admitted
    else if mutating then if times == 2 then Nudged else Refused
    else if times == 2 then Admitted
    else if cfg.autonomousRecovery then Nudged else Refused
  }

  /** How often in a row a batch is requested now. */
  function Times(m: Memory, ops: seq<Operation>): nat {
    if m.last == ops then m.consecutive + 1 else 1
  }

  function Operations(reqs: seq<Request>): (ops: seq<Operation>)
    ensures |ops| == |reqs| && forall k | 0 <= k < |ops| :: ops[k] == reqs[k].op
  {
    seq(|reqs|, k requires 0 <= k < |reqs| => reqs[k].op)
  }

  function Results(done: seq<Processed>): (r: seq<string>)
    ensures |r| == |done| && forall k | 0 <= k < |r| :: r[k] == done[k].result
  {
    seq(|done|, k requires 0 <= k < |done| => done[k].result)
  }

  /** Some call of the batch changed state. */
  predicate BatchEffect(p: Policy, done: seq<Processed>) {
    exists k :: 0 <= k < |done| && !done[k].isError && p.effect(done[k].op) && !IsBehaviorCheck(p, done[k].op)
  }

  predicate AnyStalled(done: seq<Processed>) {
    exists k :: 0 <= k < |done| && done[k].stalled
  }

  /** The run needs a mutation and keeps inspecting. */
  predicate InspectsOnly(cfg: Config, mutation: bool, inspections: nat) {
    cfg.requireMutation && !mutation && inspections >= INSPECTIONS_BEFORE_NUDGE
  }

  /**
   A batch stalls the run: its checks keep failing alike, its outcomes repeat without progress (unless the run is just
   being told to implement), or the same calls gave the same results too often.
   */
  predicate Stalls(p: Policy, m: Memory, ops: seq<Operation>, done: seq<Processed>, toldToImplement: bool) {
    var semantic := StallRepeats(m.bags, Signatures(p.stallSignature, Results(done)), BatchEffect(p, done));
    || AnyStalled(done)
    || (semantic >= SEMANTIC_STALL_REPEATS && !toldToImplement)
    || Count(m.recent, FingerprintOf(ops, Results(done))) + 1 >= STALL_FALLBACK_REPEATS
  }

  /** The guard has seen the results of a batch. */
  function Observed(s: Setup, m: Memory, ops: seq<Operation>, done: seq<Processed>): Memory {
    var bag := Signatures(s.policy.stallSignature, Results(done));
    m.(recent := Last(m.recent + [FingerprintOf(ops, Results(done))], s.window),
       bags := NextBags(m.bags, bag, BatchEffect(s.policy, done), s.window))
  }

  /**
   An answer with calls that begins with DONE: the third way to complete. It does not ask for a required mutation.
   */
  function DoneAnswer(cfg: Config, f: Flags, sent: Requests, guardAccepts: bool): (Requests, Option<RunResult>) {
    if LacksProof(cfg, f) then (sent.(verification := true), if sent.verification then Some(PAUSE) else None)
    else if LacksAudit(cfg, f, true, sent.audit) then (sent.(audit := true), None)
    else (sent, Some(Guarded(cfg, ByDone, guardAccepts)))
  }

  /** What follows from the results of a batch: a pause, what an answer that says DONE leads to, or another turn. */
  function BatchEnd(s: Setup, f: Flags, inspections: nat, sent: Requests, m: Memory, text: Text, ops: seq<Operation>,
                    told: seq<Processed>, guardAccepts: bool): (Requests, Option<RunResult>)
  {
    var inspectsOnly := InspectsOnly(s.cfg, f.mutation, inspections);
    var nudged := sent.(implementation := sent.implementation || inspectsOnly);
    if Stalls(s.policy, m, ops, told, inspectsOnly && !sent.implementation) then (nudged, Some(PAUSE))
    else if text.saysDone then DoneAnswer(s.cfg, f, nudged, guardAccepts)
    else (nudged, None)
  }

  /** The calls of an admitted batch, and what follows from their results. */
  function Started(s: Setup, l: Loop, text: Text, reqs: seq<Request>, guardAccepts: bool): TurnOutcome {
    var b, ops := Batch(s, l.now, reqs, |reqs| == 1, guardAccepts), Operations(reqs);
    if b.end.Some? then TurnOutcome(Loop(b.now, l.memory, true), b.end)
    else
      var (sent, end) :=
        BatchEnd(s, b.now.flags, b.now.inspections, b.now.sent, l.memory, text, ops, b.told, guardAccepts);
      TurnOutcome(Loop(b.now.(sent := sent), Observed(s, l.memory, ops, b.told), true), end)
  }

  /** What the guard remembers of a batch it was asked for, and what the host asks for instead of it. */
  function AfterAdmission(cfg: Config, l: Loop, ops: seq<Operation>, v: Admission, mutating: bool): Loop {
    if v == Nudged && !mutating then
      var sent := l.now.sent;
      var implement := sent.implementation || (cfg.requireMutation && !l.now.flags.mutation);
      l.(memory := Memory([], 0, [], []), now := l.now.(sent := sent.(implementation := implement)))
    else l.(memory := l.memory.(last := ops, consecutive := Times(l.memory, ops)))
  }

  /** The guard admits the batch, asks for something else, or ends the run. */
  function CallAnswer(s: Setup, l: Loop, text: Text, reqs: seq<Request>, guardAccepts: bool): TurnOutcome {
    var ops := Operations(reqs);
    var mutating := MutatingBatch(s.policy, ops);
    var v := AdmissionOf(s.cfg, Times(l.memory, ops), mutating);
    var after := AfterAdmission(s.cfg, l, ops, v, mutating);
    match v
    case Admitted => Started(s, after, text, reqs, guardAccepts)
    case Refused => TurnOutcome(after, Some(PAUSE))
    case Nudged => TurnOutcome(after, None)
  }

  // ---- turns and runs ----

  /** One turn: a yield, a stop by the operator, or what follows from the model's reply. */
  function OneTurn(s: Setup, l: Loop, turn: Turn): TurnOutcome {
    if turn.handsOver then TurnOutcome(l, Some(RunResult(RunPaused, ByYield)))
    else if turn.stops then TurnOutcome(l, Some(PAUSE))
    else
      match turn.reply
      case Interrupted => TurnOutcome(l, Some(PAUSE))
      case Broken(retryable) => TurnOutcome(l, Some(if retryable then PAUSE else RunResult(RunFailed, ByModelFailure)))
      case Answer(text, reqs) =>
        if reqs == [] then TextAnswer(s, l, text, turn.guardAccepts)
        else CallAnswer(s, l, text, reqs, turn.guardAccepts)
  }

  /** The host asked for a follow-up turn: a repair, a verification or an audit. */
  predicate FollowUpPending(l: Loop) {
    l.now.sent.repair || l.now.sent.verification || l.now.sent.audit
  }

  /** The state after the first `k` turns of a script, none of which ended the run. */
  function LoopAfter(s: Setup, l: Loop, script: nat -> Turn, k: nat): Loop {
    if k == 0 then l else OneTurn(s, LoopAfter(s, l, script, k - 1), script(k - 1)).loop
  }

  /** How turn `k` of a script ends the run, if it does. */
  function EndOf(s: Setup, l: Loop, script: nat -> Turn, k: nat): Option<RunResult> {
    OneTurn(s, LoopAfter(s, l, script, k), script(k)).end
  }

  /**
   A run takes `taken` turns of the script and ends with `r`: with the first turn that ends it, or paused when the limit
   is reached and no request of the host is open, at the latest two turns beyond the limit.
   */
  ghost predicate RunsTo(s: Setup, l: Loop, script: nat -> Turn, taken: nat, r: RunResult) {
    var limit := IterationLimit(s.cfg);
    && taken <= limit + GRACE_TURNS
    && (forall k | 0 <= k < taken - 1 :: EndOf(s, l, script, k).None?)
    && (forall k | limit <= k < taken :: FollowUpPending(LoopAfter(s, l, script, k)))
    && if taken > 0 && EndOf(s, l, script, taken - 1).Some? then EndOf(s, l, script, taken - 1) == Some(r)
       else
         && r == PAUSE && taken >= limit
         && (taken == limit + GRACE_TURNS || !FollowUpPending(LoopAfter(s, l, script, taken)))
  }

  /** The first `k` turns of the script left the run open, those beyond the limit taken while a request was open. */
  ghost predicate OpenFor(s: Setup, l: Loop, script: nat -> Turn, k: nat) {
    && (forall j | 0 <= j < k :: EndOf(s, l, script, j).None?)
    && (forall j | IterationLimit(s.cfg) <= j < k :: FollowUpPending(LoopAfter(s, l, script, j)))
  }

  lemma TurnTaken(s: Setup, l: Loop, script: nat -> Turn, k: nat)
    requires OpenFor(s, l, script, k) && k < IterationLimit(s.cfg) + GRACE_TURNS
    requires k >= IterationLimit(s.cfg) ==> FollowUpPending(LoopAfter(s, l, script, k))
    ensures var t := OneTurn(s, LoopAfter(s, l, script, k), script(k));
            && t.loop == LoopAfter(s, l, script, k + 1)
            && if t.end.Some? then RunsTo(s, l, script, k + 1, t.end.value) else OpenFor(s, l, script, k + 1)
  {
    hide OneTurn, FollowUpPending, IterationLimit;
  }

  lemma NoMoreTurns(s: Setup, l: Loop, script: nat -> Turn, k: nat)
    requires OpenFor(s, l, script, k) && IterationLimit(s.cfg) <= k <= IterationLimit(s.cfg) + GRACE_TURNS
    requires k == IterationLimit(s.cfg) + GRACE_TURNS || !FollowUpPending(LoopAfter(s, l, script, k))
    ensures RunsTo(s, l, script, k, PAUSE)
  {
  }

  /** One script, one run. */
  lemma RunIsDetermined(s: Setup, l: Loop, script: nat -> Turn, m: nat, r: RunResult, n: nat, q: RunResult)
    requires RunsTo(s, l, script, m, r) && RunsTo(s, l, script, n, q)
    ensures m == n && r == q
  {
    hide OneTurn, FollowUpPending, LoopAfter, IterationLimit, EndOf;
  }

  // ---- what holds of every turn ----

  /**
   An answer without calls completes the run exactly when it is usable, a required mutation was made or its absence is
   justified, a mutation is verified (and tested) where that is enforced, and neither the one request to use a tool nor
   the one audit is due.
   */
  lemma TextCompletesExactlyWhen(s: Setup, l: Loop, text: Text, guardAccepts: bool)
    ensures var t, f, cfg := TextAnswer(s, l, text, guardAccepts), l.now.flags, s.cfg;
            (t.end.Some? && t.end != Some(PAUSE)) <==>
              && !text.unusable
              && (cfg.requireMutation ==> f.mutation || text.justifiesNoChange)
              && (cfg.enforceVerification && f.mutation ==> f.verification && (cfg.requireTest ==> f.test))
              && (cfg.mustUseTools ==> l.toolWasCalled || l.now.sent.tool)
              && (cfg.enforceVerification && f.mutation && l.toolWasCalled && cfg.needsAudit ==> l.now.sent.audit)
    ensures var t := TextAnswer(s, l, text, guardAccepts);
            && t.loop.now.(sent := l.now.sent) == l.now && t.loop.memory == l.memory
            && t.loop.toolWasCalled == l.toolWasCalled && (t.end.Some? ==> t.loop == l)
            && (t.end.Some? && t.end != Some(PAUSE) ==>
                  t.end.value == if s.cfg.hasGuard && !guardAccepts then RunResult(RunFailed, ByGuard)
                                 else RunResult(RunCompleted, ByText(text.justifiesNoChange)))
  {
  }

  /** How many of the one-time requests for a better final answer were sent. */
  function Nudges(sent: Requests): nat {
    One(sent.repair) + One(sent.noChange) + One(sent.verification) + One(sent.tool) + One(sent.audit)
  }

  function One(b: bool): nat {
    if b then 1 else 0
  }

  /**
   An answer without calls that leaves the run open has sent one more request: for the first thing it lacks, in the
   order repair, change, verification, tool, audit. So at most five such answers in a row leave the run open.
   */
  lemma EveryTextAsksOrEnds(s: Setup, l: Loop, text: Text, guardAccepts: bool)
    requires TextAnswer(s, l, text, guardAccepts).end.None?
    ensures var t, f, cfg, sent := TextAnswer(s, l, text, guardAccepts), l.now.flags, s.cfg, l.now.sent;
            var idle := cfg.requireMutation && !f.mutation && !text.justifiesNoChange;
            var unproven := cfg.enforceVerification && f.mutation && !(f.verification && (cfg.requireTest ==> f.test));
            var unused := cfg.mustUseTools && !l.toolWasCalled && !sent.tool;
            && Nudges(t.loop.now.sent) == Nudges(sent) + 1 <= 5
            && t.loop.now.sent == if text.unusable then sent.(repair := true)
                                  else if idle then sent.(noChange := true)
                                  else if unproven then sent.(verification := true)
                                  else if unused then sent.(tool := true)
                                  else sent.(audit := true)
  {
  }

  /** A completed run passed the gate: its flags say verified, and tested where that is required. */
  lemma CompletionPassesTheGate(s: Setup, l: Loop, turn: Turn)
    ensures var t := OneTurn(s, l, turn);
            var f := t.loop.now.flags;
            t.end.Some? && t.end.value.status.RunCompleted? && s.cfg.enforceVerification && f.mutation ==>
              f.verification && (s.cfg.requireTest ==> f.test)
  {
    hide Stalls, Observed, AdmissionOf, MutatingBatch, AfterAdmission, InspectsOnly, LacksAudit;
    if turn.reply.Answer? && turn.reply.calls != [] {
      var reqs := turn.reply.calls;
      var ops := Operations(reqs);
      var mutating := MutatingBatch(s.policy, ops);
      var v := AdmissionOf(s.cfg, Times(l.memory, ops), mutating);
      BatchPassesTheGate(s, AfterAdmission(s.cfg, l, ops, v, mutating).now, reqs, |reqs| == 1, turn.guardAccepts);
    }
  }

  lemma {:induction false} BatchPassesTheGate(s: Setup, now: Situation, reqs: seq<Request>, sole: bool,
                                              guardAccepts: bool)
    ensures var b := Batch(s, now, reqs, sole, guardAccepts);
            var f := b.now.flags;
            b.end.Some? && b.end.value.status.RunCompleted? && s.cfg.enforceVerification && f.mutation ==>
              f.verification && (s.cfg.requireTest ==> f.test)
  {
    hide After, Event, Told, Rejected, LacksAudit;
    if reqs != [] {
      BatchPassesTheGate(s, now, reqs[..|reqs| - 1], sole, guardAccepts);
    }
  }

  /** The guard's table, by how often in a row the batch is requested. */
  lemma AdmissionTable(cfg: Config, times: nat, mutating: bool)
    ensures times <= 1 ==> AdmissionOf(cfg, times, mutating) == Admitted
    ensures mutating && times == 2 ==> AdmissionOf(cfg, times, mutating) == Nudged
    ensures mutating && times > 2 ==> AdmissionOf(cfg, times, mutating) == Refused
    ensures !mutating && times == 2 ==> AdmissionOf(cfg, times, mutating) == Admitted
    ensures !mutating && times == 3 && cfg.polling ==> AdmissionOf(cfg, times, mutating) == Admitted
    ensures !mutating && (times > 3 || (times == 3 && !cfg.polling)) ==>
              AdmissionOf(cfg, times, mutating) == if cfg.autonomousRecovery then Nudged else Refused
  {
  }

  /** The same reading batch is executed twice in a row, and a third time only while polling. */
  lemma ReadingBatchesRunTwice(cfg: Config, p: Policy, ops: seq<Operation>)
    requires forall k | 0 <= k < |ops| :: !p.risk(ops[k]).mutation
    ensures AdmissionOf(cfg, 2, MutatingBatch(p, ops)) == Admitted
    ensures AdmissionOf(cfg, 3, MutatingBatch(p, ops)) == Admitted <==> cfg.polling
  {
    assert !MutatingBatch(p, ops);
  }

  /**
   When a finished batch pauses the run: a check of a known mutation failed for the fifth time, the same calls gave
   results with the same ends for the sixth time, or the same bag of no-progress signatures came up for the fourth time
   since the last effect, unless the run is being told to implement.
   */
  lemma StallsExactlyWhen(p: Policy, m: Memory, ops: seq<Operation>, done: seq<Processed>, toldToImplement: bool)
    ensures var bag := Signatures(p.stallSignature, Results(done));
            var effect := exists k :: 0 <= k < |done| && !done[k].isError && p.effect(done[k].op)
                                      && !IsBehaviorCheck(p, done[k].op);
            Stalls(p, m, ops, done, toldToImplement) <==>
              || (exists k :: 0 <= k < |done| && done[k].stalled)
              || Count(m.recent, FingerprintOf(ops, Results(done))) >= 5
              || (!toldToImplement && !effect && bag != multiset{} && Count(m.bags, bag) >= 3)
  {
    hide Count, Signatures, FingerprintOf, Results, IsBehaviorCheck;
  }

  /** A batch the guard does not admit runs no call and leaves everything but the guard's own notes as it was. */
  lemma DeclinedBatchRunsNothing(s: Setup, l: Loop, text: Text, reqs: seq<Request>, guardAccepts: bool)
    requires var ops := Operations(reqs);
             AdmissionOf(s.cfg, Times(l.memory, ops), MutatingBatch(s.policy, ops)) != Admitted
    ensures var t := CallAnswer(s, l, text, reqs, guardAccepts);
            && t.loop.now.(sent := l.now.sent) == l.now && t.loop.toolWasCalled == l.toolWasCalled
            && (t.end.None? || t.end == Some(PAUSE))
            && t.loop.now.sent.(implementation := l.now.sent.implementation) == l.now.sent
  {
    hide MutatingBatch;
  }

  /**
   An admitted batch: its calls are answered one by one; when none ends the run, a stall pauses it, an answer that says
   DONE completes it or asks for what is missing, and any other answer leads to the next turn.
   */
  lemma AdmittedBatch(s: Setup, l: Loop, text: Text, reqs: seq<Request>, guardAccepts: bool)
    requires var ops := Operations(reqs);
             AdmissionOf(s.cfg, Times(l.memory, ops), MutatingBatch(s.policy, ops)) == Admitted
    ensures var t := CallAnswer(s, l, text, reqs, guardAccepts);
            var b := Batch(s, l.now, reqs, |reqs| == 1, guardAccepts);
            var f, cfg, sent := b.now.flags, s.cfg, b.now.sent;
            var inspectsOnly := cfg.requireMutation && !f.mutation && b.now.inspections >= 4;
            var stalls := Stalls(s.policy, l.memory, Operations(reqs), b.told, inspectsOnly && !sent.implementation);
            var unproven := cfg.enforceVerification && f.mutation && !(f.verification && (cfg.requireTest ==> f.test));
            var unaudited := f.mutation && cfg.needsAudit && !sent.audit;
            && t.loop.toolWasCalled && t.loop.now.(sent := sent) == b.now
            && (b.end.Some? ==> t.end == b.end)
            && (b.end.None? && stalls ==> t.end == Some(PAUSE))
            && (b.end.None? && !stalls && !text.saysDone ==> t.end == None)
            && (b.end.None? && !stalls && text.saysDone ==>
                  t.end == if unproven then if sent.verification then Some(PAUSE) else None
                           else if unaudited then None
                           else if cfg.hasGuard && !guardAccepts then Some(RunResult(RunFailed, ByGuard))
                           else Some(RunResult(RunCompleted, ByDone)))
            && (b.end.None? && inspectsOnly ==> t.loop.now.sent.implementation)
  {
    hide MutatingBatch, Batch, Observed, StallRepeats, Signatures, Count, FingerprintOf, AnyStalled, BatchEffect;
    hide Results;
  }

  /** A turn in which the model gives no answer ends the run: paused, or failed when the model failed for good. */
  lemma NoAnswerEndsTheRun(s: Setup, l: Loop, turn: Turn)
    requires turn.handsOver || turn.stops || !turn.reply.Answer?
    ensures OneTurn(s, l, turn) ==
            TurnOutcome(l, Some(
              if turn.handsOver then RunResult(RunPaused, ByYield)
              else if !turn.stops && turn.reply == Broken(false) then RunResult(RunFailed, ByModelFailure)
              else RunResult(RunPaused, ByPause)))
  {
  }

  // ---- what holds over whole runs ----

  /** A run whose first answer is fine completes with it. */
  lemma FineFirstAnswerCompletes(s: Setup, l: Loop, script: nat -> Turn, taken: nat, r: RunResult)
    requires RunsTo(s, l, script, taken, r)
    requires var t := script(0); !t.handsOver && !t.stops && t.reply.Answer? && t.reply.calls == []
    requires var text, f, cfg := script(0).reply.text, l.now.flags, s.cfg;
             && !text.unusable && (cfg.requireMutation ==> f.mutation || text.justifiesNoChange)
             && (cfg.enforceVerification && f.mutation ==> f.verification && (cfg.requireTest ==> f.test))
             && (cfg.enforceVerification && f.mutation && l.toolWasCalled && cfg.needsAudit ==> l.now.sent.audit)
             && (cfg.mustUseTools ==> l.toolWasCalled || l.now.sent.tool)
             && (cfg.hasGuard ==> script(0).guardAccepts)
    ensures taken == 1 && r == RunResult(RunCompleted, ByText(script(0).reply.text.justifiesNoChange))
    ensures LoopAfter(s, l, script, taken) == l
  {
    TextCompletesExactlyWhen(s, l, script(0).reply.text, script(0).guardAccepts);
    hide TextAnswer, CallAnswer;
    assert EndOf(s, l, script, 0).Some?;
  }

  /**
   A run that is not ended by a turn takes all turns up to the limit; it stops there or one turn later only when neither a
   repair nor a verification nor an audit was asked for, and otherwise two turns later.
   */
  lemma OpenRequestsAreFollowed(s: Setup, l: Loop, script: nat -> Turn, taken: nat, r: RunResult)
    requires RunsTo(s, l, script, taken, r)
    requires forall k | 0 <= k < taken :: EndOf(s, l, script, k).None?
    ensures r == RunResult(RunPaused, ByPause) && IterationLimit(s.cfg) <= taken <= IterationLimit(s.cfg) + 2
    ensures taken < IterationLimit(s.cfg) + 2 ==>
              var sent := LoopAfter(s, l, script, taken).now.sent; !sent.repair && !sent.verification && !sent.audit
    ensures forall k | IterationLimit(s.cfg) <= k < taken ::
              var sent := LoopAfter(s, l, script, k).now.sent; sent.repair || sent.verification || sent.audit
  {
    hide IterationLimit, OneTurn;
    if taken > 0 { assert EndOf(s, l, script, taken - 1).None?; }
    forall k | IterationLimit(s.cfg) <= k < taken
      ensures var sent := LoopAfter(s, l, script, k).now.sent; sent.repair || sent.verification || sent.audit
    {
      assert FollowUpPending(LoopAfter(s, l, script, k));
    }
  }

  lemma LogTellsAfterTurn(s: Setup, world: World, l: Loop, turn: Turn)
    requires LogTells(s, world, l.now)
    ensures LogTells(s, world, OneTurn(s, l, turn).loop.now)
  {
    hide LogTells, Batch, TextEnd, BatchEnd, Observed, MutatingBatch, AdmissionOf;
    var next := OneTurn(s, l, turn).loop.now;
    if turn.reply.Answer? && turn.reply.calls != [] && !turn.handsOver && !turn.stops {
      var reqs := turn.reply.calls;
      var ops := Operations(reqs);
      var mutating := MutatingBatch(s.policy, ops);
      var v := AdmissionOf(s.cfg, Times(l.memory, ops), mutating);
      var after := AfterAdmission(s.cfg, l, ops, v, mutating);
      RequestsTellNothing(s, world, l.now, after.now);
      BatchTells(s, world, after.now, reqs, |reqs| == 1, turn.guardAccepts);
      if v == Admitted {
        RequestsTellNothing(s, world, Batch(s, after.now, reqs, |reqs| == 1, turn.guardAccepts).now, next);
      }
    } else {
      RequestsTellNothing(s, world, l.now, next);
    }
  }

  lemma RequestsTellNothing(s: Setup, world: World, now: Situation, next: Situation)
    requires LogTells(s, world, now) && next == now.(sent := next.sent)
    ensures LogTells(s, world, next)
  {
    hide CircuitTells, IsWhatRan, WasRead;
    SameCircuit(s.policy, now, next);
  }

  /**
   At every moment of a run: every logged outcome is what its tool gave in the world of that moment, only executed calls
   moved the world, the failure counts are those of the log, a call is stopped only for a reason in the log, and
   inspections and reads that count are in the log.
   */
  lemma {:induction false} LogTellsTheRun(s: Setup, l: Loop, script: nat -> Turn, k: nat)
    requires l.now.calls == [] && l.now.counts == map[] && l.now.blocked == map[]
    requires l.now.inspections == 0 && l.now.recordedReads == {}
    ensures LogTells(s, l.now.world, LoopAfter(s, l, script, k).now)
  {
    hide OneTurn;
    if k > 0 {
      LogTellsTheRun(s, l, script, k - 1);
      LogTellsAfterTurn(s, l.now.world, LoopAfter(s, l, script, k - 1), script(k - 1));
    }
  }
}
