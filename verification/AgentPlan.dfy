/**
 The persistent execution plan (aicoder/agent_plan.py, AgentPlan and PlanStore): what a resumed run starts from.
 */
module AgentPlan {
  import opened Wrappers

  datatype StepId = Inspect | Implement | Verify | OtherStep(name: string)

  datatype StepStatus = Pending | InProgress | Done | Skipped

  datatype PlanStep = PlanStep(id: StepId, status: StepStatus)

  datatype PlanStatus = Running | Paused | Failed | Completed

  /** What the plan store writes and reads. */
  datatype PlanData = PlanData(status: PlanStatus, steps: seq<PlanStep>, iteration: nat, resumeCount: nat)

  /** `set_step`: the first step with the id. */
  function WithStatus(steps: seq<PlanStep>, id: StepId, status: StepStatus): seq<PlanStep> {
    if steps == [] then []
    else if steps[0].id == id then [steps[0].(status := status)] + steps[1..]
    else [steps[0]] + WithStatus(steps[1..], id, status)
  }

  /** The status a dictionary by id holds: that of the last step with the id. */
  function StatusOf(steps: seq<PlanStep>, id: StepId): Option<StepStatus> {
    if steps == [] then None
    else if steps[|steps| - 1].id == id then Some(steps[|steps| - 1].status)
    else StatusOf(steps[..|steps| - 1], id)
  }

  /** `progress_flags`: what a resumed run takes as known. */
  function ProgressFlags(steps: seq<PlanStep>): (bool, bool) {
    var mutation := StatusOf(steps, Implement) == Some(Done);
    (mutation, mutation && StatusOf(steps, Verify) == Some(Done))
  }

  /** The three steps of every plan the store creates. */
  predicate Shaped(steps: seq<PlanStep>) {
    |steps| == 3 && steps[0].id == Inspect && steps[1].id == Implement && steps[2].id == Verify
  }

  /** Implementation is never done before inspection. */
  predicate Sound(steps: seq<PlanStep>) {
    Shaped(steps) && (steps[1].status == Done ==> steps[0].status == Done)
  }

  function Position(id: StepId): nat {
    match id
    case Inspect => 0
    case Implement => 1
    case _ => 2
  }

  lemma {:induction false} WithStatusAt(steps: seq<PlanStep>, id: StepId, status: StepStatus, k: nat)
    requires k <= |steps| && forall j | 0 <= j < k :: steps[j].id != id
    requires k < |steps| ==> steps[k].id == id
    ensures WithStatus(steps, id, status) == if k < |steps| then steps[k := steps[k].(status := status)] else steps
  {
    if k > 0 {
      assert forall j | 0 <= j < k - 1 :: steps[1..][j] == steps[j + 1];
      WithStatusAt(steps[1..], id, status, k - 1);
    }
  }

  lemma {:induction false} StatusAt(steps: seq<PlanStep>, id: StepId, k: nat)
    requires k < |steps| && steps[k].id == id && forall j | k < j < |steps| :: steps[j].id != id
    ensures StatusOf(steps, id) == Some(steps[k].status)
  {
    if k < |steps| - 1 {
      StatusAt(steps[..|steps| - 1], id, k);
    }
  }

  lemma WithStatusOfShaped(steps: seq<PlanStep>, id: StepId, status: StepStatus)
    requires Shaped(steps) && !id.OtherStep?
    ensures WithStatus(steps, id, status) == steps[Position(id) := PlanStep(id, status)]
  {
    WithStatusAt(steps, id, status, Position(id));
  }

  lemma FlagsOfShaped(steps: seq<PlanStep>)
    requires Shaped(steps)
    ensures ProgressFlags(steps) == (steps[1].status == Done, steps[1].status == Done && steps[2].status == Done)
  {
    StatusAt(steps, Implement, 1);
    StatusAt(steps, Verify, 2);
  }

  class Plan {
    var status: PlanStatus
    var steps: seq<PlanStep>
    var iteration: nat
    var resumeCount: nat
    /** The plan as the store holds it. */
    var stored: PlanData

    /** The plan is well formed, and so is what is stored. */
    ghost predicate Valid()
      reads this
    {
      Sound(steps) && Sound(stored.steps)
    }

    /** What would be stored now. */
    ghost function Data(): PlanData
      reads this
    {
      PlanData(status, steps, iteration, resumeCount)
    }

    /** `PlanStore.create`. */
    constructor Create()
      ensures Valid() && stored == Data() && status == Running && iteration == 0
      ensures ProgressFlags(steps) == (false, false) && steps[0].status == InProgress
    {
      status, iteration, resumeCount := Running, 0, 0;
      steps := [PlanStep(Inspect, InProgress), PlanStep(Implement, Pending), PlanStep(Verify, Pending)];
      stored := PlanData(Running, [PlanStep(Inspect, InProgress), PlanStep(Implement, Pending), PlanStep(Verify, Pending)], 0, 0);
      new;
      FlagsOfShaped(steps);
    }

    /** Resume a stored plan that is not completed. */
    constructor Resume(data: PlanData)
      requires Sound(data.steps) && data.status != Completed
      ensures Valid() && stored == Data() && status == Running
      ensures steps == data.steps && iteration == data.iteration && resumeCount == data.resumeCount + 1
    {
      status, steps, iteration, resumeCount := Running, data.steps, data.iteration, data.resumeCount + 1;
      stored := PlanData(Running, data.steps, data.iteration, data.resumeCount + 1);
    }

    method SetStep(id: StepId, newStatus: StepStatus)
      modifies this`steps
      ensures steps == WithStatus(old(steps), id, newStatus)
    {
      var i := 0;
      while i < |steps|
        invariant 0 <= i <= |steps| && steps == old(steps)
        invariant forall j | 0 <= j < i :: steps[j].id != id
      {
        if steps[i].id == id {
          WithStatusAt(steps, id, newStatus, i);
          steps := steps[i := steps[i].(status := newStatus)];
          return;
        }
        i := i + 1;
      }
      WithStatusAt(steps, id, newStatus, i);
    }

    /** `PlanStore.save`. */
    method Save()
      requires Sound(steps)
      modifies this`stored
      ensures Valid() && stored == Data()
    {
      stored := PlanData(status, steps, iteration, resumeCount);
    }
  }
}
