/**
 * The step-by-step builder of `pyjobshop/Model.py` (the generation whose
 * problem data speaks of machines and operations). Each `add_*` call appends
 * to a list or updates a dictionary; the objects it returns are known to the
 * builder only by their identity, which it maps to a list index.
 */
module PyModel {
  import opened Wrappers
  import opened Identity
  import opened Dense

  /** The arguments of the `Job(...)` call in `add_job`, in the order in which they are passed. */
  datatype Job = Job(weight: int, releaseDate: int, dueDate: Option<int>, deadline: Option<int>, name: string)

  datatype Machine = Machine(downtimes: seq<(int, int)>, allowOverlap: bool, name: string)

  datatype Operation = Operation(
    earliestStart: Option<int>,
    latestStart: Option<int>,
    earliestEnd: Option<int>,
    latestEnd: Option<int>,
    fixedDuration: bool,
    optional: bool,
    name: string)

  datatype TimingPrecedence =
    | StartAtStart | StartAtEnd | StartBeforeStart | StartBeforeEnd
    | EndAtStart | EndAtEnd | EndBeforeStart | EndBeforeEnd

  /** The assignment-precedence relations; their values are not part of this model. */
  datatype AssignmentPrecedence = AssignmentPrecedence(name: string)

  /** The objective enumeration; only its default member `MAKESPAN` is fixed here. */
  datatype Objective = Makespan | OtherObjective(name: string)

  datatype BuilderError = NegativeProcessingTime

  /** Everything the builder holds, as one value. */
  datatype State = State(
    jobs: seq<Job>,
    machines: seq<Machine>,
    operations: seq<Operation>,
    job2ops: map<nat, seq<nat>>,
    processingTimes: map<(nat, nat), int>,
    timingPrecedences: map<(nat, nat), seq<(TimingPrecedence, int)>>,
    assignmentPrecedences: map<(nat, nat), seq<AssignmentPrecedence>>,
    setupTimes: map<(nat, nat, nat), int>,
    processPlans: seq<seq<seq<nat>>>,
    planningHorizon: Option<int>,
    objective: Objective,
    id2job: map<Handle, nat>,
    id2machine: map<Handle, nat>,
    id2op: map<Handle, nat>)

  /** What `data()` hands to the problem-data constructor. */
  datatype ModelData = ModelData(
    jobs: seq<Job>,
    machines: seq<Machine>,
    operations: seq<Operation>,
    job2ops: seq<seq<nat>>,
    processingTimes: map<(nat, nat), int>,
    timingPrecedences: map<(nat, nat), seq<(TimingPrecedence, int)>>,
    assignmentPrecedences: map<(nat, nat), seq<AssignmentPrecedence>>,
    setupTimes: array3<int>,
    processPlans: seq<seq<seq<nat>>>,
    planningHorizon: Option<int>,
    objective: Objective)

  /**
   * The identity maps are injective and point into their lists, and every
   * recorded index is the index of an existing job, machine or operation.
   */
  ghost predicate ValidState(s: State)
  {
    && Injective(s.id2job) && Injective(s.id2machine) && Injective(s.id2op)
    && Below(s.id2job, |s.jobs|) && Below(s.id2machine, |s.machines|) && Below(s.id2op, |s.operations|)
    && (forall j :: j in s.job2ops ==> j < |s.jobs| && forall k :: 0 <= k < |s.job2ops[j]| ==> s.job2ops[j][k] < |s.operations|)
    && (forall k :: k in s.processingTimes ==> k.0 < |s.machines| && k.1 < |s.operations|)
    && (forall k :: k in s.timingPrecedences ==> k.0 < |s.operations| && k.1 < |s.operations|)
    && (forall k :: k in s.assignmentPrecedences ==> k.0 < |s.operations| && k.1 < |s.operations|)
    && (forall k :: k in s.setupTimes ==> k.0 < |s.machines| && k.1 < |s.operations| && k.2 < |s.operations|)
  }

  /** Adding an operation under a fresh handle, and to a known job's list, keeps the state valid. */
  lemma {:induction false} AddOperationValid(s: State, h: Handle, op: Operation, job: Option<Handle>)
    requires ValidState(s) && h !in s.id2op
    requires job.Some? ==> job.value in s.id2job
    ensures ValidState(s.(
              operations := s.operations + [op],
              id2op := s.id2op[h := |s.operations|],
              job2ops := if job.Some?
                         then s.job2ops[s.id2job[job.value] := ListAt(s.job2ops, s.id2job[job.value]) + [|s.operations|]]
                         else s.job2ops))
  {
  }

  class Model {
    var jobs: seq<Job>
    var machines: seq<Machine>
    var operations: seq<Operation>
    var job2ops: map<nat, seq<nat>>
    var processingTimes: map<(nat, nat), int>
    var timingPrecedences: map<(nat, nat), seq<(TimingPrecedence, int)>>
    var assignmentPrecedences: map<(nat, nat), seq<AssignmentPrecedence>>
    var setupTimes: map<(nat, nat, nat), int>
    var processPlans: seq<seq<seq<nat>>>
    var planningHorizon: Option<int>
    var objective: Objective
    var id2job: map<Handle, nat>
    var id2machine: map<Handle, nat>
    var id2op: map<Handle, nat>

    function Snapshot(): State
      reads this
    {
      State(jobs, machines, operations, job2ops, processingTimes, timingPrecedences, assignmentPrecedences,
            setupTimes, processPlans, planningHorizon, objective, id2job, id2machine, id2op)
    }

    /**
     * The identity maps are injective and point into their lists, and every
     * recorded index is the index of an existing job, machine or operation.
     */
    ghost predicate Valid()
      reads this
    {
      ValidState(Snapshot())
    }

    constructor ()
      ensures Valid()
      ensures Snapshot() == State([], [], [], map[], map[], map[], map[], map[], [], None, Makespan, map[], map[], map[])
    {
      jobs, machines, operations := [], [], [];
      job2ops, processingTimes, timingPrecedences, assignmentPrecedences, setupTimes := map[], map[], map[], map[], map[];
      processPlans, planningHorizon, objective := [], None, Makespan;
      id2job, id2machine, id2op := map[], map[], map[];
    }

    /** `add_job`: appends the job and maps the new object to the old number of jobs. */
    method AddJob(weight: int := 1, releaseDate: int := 0, dueDate: Option<int> := None,
                  deadline: Option<int> := None, name: string := "") returns (job: Handle)
      requires Valid()
      modifies this
      ensures Valid() && fresh(job)
      ensures Snapshot() == old(Snapshot()).(jobs := old(jobs) + [Job(weight, releaseDate, dueDate, deadline, name)],
                                             id2job := old(id2job)[job := old(|jobs|)])
    {
      job := new Handle();
      id2job := id2job[job := |jobs|];
      jobs := jobs + [Job(weight, releaseDate, dueDate, deadline, name)];
    }

    /** `add_machine`: appends the machine and maps the new object to the old number of machines. */
    method AddMachine(downtimes: seq<(int, int)> := [], allowOverlap: bool := false, name: string := "")
      returns (machine: Handle)
      requires Valid()
      modifies this
      ensures Valid() && fresh(machine)
      ensures Snapshot() == old(Snapshot()).(machines := old(machines) + [Machine(downtimes, allowOverlap, name)],
                                             id2machine := old(id2machine)[machine := old(|machines|)])
    {
      machine := new Handle();
      id2machine := id2machine[machine := |machines|];
      machines := machines + [Machine(downtimes, allowOverlap, name)];
    }

    /**
     * `add_operation`: appends the operation, maps the new object to the old
     * number of operations and, when a job is given, appends that index to the
     * job's operation list.
     */
    method AddOperation(job: Option<Handle> := None, earliestStart: Option<int> := None,
                        latestStart: Option<int> := None, earliestEnd: Option<int> := None,
                        latestEnd: Option<int> := None, fixedDuration: bool := true, optional: bool := false,
                        name: string := "") returns (operation: Handle)
      requires Valid()
      requires job.Some? ==> job.value in id2job
      modifies this
      ensures Valid() && fresh(operation)
      ensures var op := Operation(earliestStart, latestStart, earliestEnd, latestEnd, fixedDuration, optional, name);
              Snapshot() == old(Snapshot()).(
                operations := old(operations) + [op],
                id2op := old(id2op)[operation := old(|operations|)],
                job2ops := if job.Some?
                           then old(job2ops)[old(id2job)[job.value] := ListAt(old(job2ops), old(id2job)[job.value]) + [old(|operations|)]]
                           else old(job2ops))
    {
      ghost var s0 := Snapshot();
      operation := new Handle();
      var op := Operation(earliestStart, latestStart, earliestEnd, latestEnd, fixedDuration, optional, name);
      AddOperationValid(s0, operation, op, job);
      ghost var s1 := s0.(
        operations := s0.operations + [op],
        id2op := s0.id2op[operation := |s0.operations|],
        job2ops := if job.Some?
                   then s0.job2ops[s0.id2job[job.value] := ListAt(s0.job2ops, s0.id2job[job.value]) + [|s0.operations|]]
                   else s0.job2ops);
      var opIdx := |operations|;
      id2op := id2op[operation := opIdx];
      operations := operations + [op];
      if job.Some? {
        var jobIdx := id2job[job.value];
        job2ops := job2ops[jobIdx := ListAt(job2ops, jobIdx) + [opIdx]];
        assert Snapshot() == s1;
      } else {
        assert Snapshot() == s1;
      }
    }

    /** `add_processing_time`: a negative duration is refused before any change; a repeated key is overwritten. */
    method AddProcessingTime(machine: Handle, operation: Handle, duration: int) returns (r: Result<(), BuilderError>)
      requires Valid()
      requires machine in id2machine && operation in id2op
      modifies this
      ensures Valid()
      ensures r.Err? <==> duration < 0
      ensures r.Err? ==> Snapshot() == old(Snapshot())
      ensures r.Ok? ==> Snapshot() == old(Snapshot()).(
                processingTimes := old(processingTimes)[(old(id2machine)[machine], old(id2op)[operation]) := duration])
    {
      if duration < 0 {
        return Err(NegativeProcessingTime);
      }
      var machineIdx := id2machine[machine];
      var opIdx := id2op[operation];
      processingTimes := processingTimes[(machineIdx, opIdx) := duration];
      return Ok(());
    }

    /** `add_timing_precedence`: appends `(constraint, delay)` to the list of the operation pair. */
    method AddTimingPrecedence(operation1: Handle, operation2: Handle,
                               constraint: TimingPrecedence := EndBeforeStart, delay: int := 0)
      requires Valid()
      requires operation1 in id2op && operation2 in id2op
      modifies this
      ensures Valid()
      ensures var key := (old(id2op)[operation1], old(id2op)[operation2]);
              Snapshot() == old(Snapshot()).(
                timingPrecedences := old(timingPrecedences)[key := ListAt(old(timingPrecedences), key) + [(constraint, delay)]])
    {
      var key := (id2op[operation1], id2op[operation2]);
      timingPrecedences := timingPrecedences[key := ListAt(timingPrecedences, key) + [(constraint, delay)]];
    }

    /** `add_assignment_precedence`: appends the relation to the list of the operation pair. */
    method AddAssignmentPrecedence(operation1: Handle, operation2: Handle, precedence: AssignmentPrecedence)
      requires Valid()
      requires operation1 in id2op && operation2 in id2op
      modifies this
      ensures Valid()
      ensures var key := (old(id2op)[operation1], old(id2op)[operation2]);
              Snapshot() == old(Snapshot()).(
                assignmentPrecedences := old(assignmentPrecedences)[key := ListAt(old(assignmentPrecedences), key) + [precedence]])
    {
      var key := (id2op[operation1], id2op[operation2]);
      assignmentPrecedences := assignmentPrecedences[key := ListAt(assignmentPrecedences, key) + [precedence]];
    }

    /** `add_setup_time`: stores the duration under (machine, op1, op2), overwriting any earlier value. */
    method AddSetupTime(machine: Handle, operation1: Handle, operation2: Handle, duration: int)
      requires Valid()
      requires machine in id2machine && operation1 in id2op && operation2 in id2op
      modifies this
      ensures Valid()
      ensures Snapshot() == old(Snapshot()).(
                setupTimes := old(setupTimes)[(old(id2machine)[machine], old(id2op)[operation1], old(id2op)[operation2]) := duration])
    {
      var key := (id2machine[machine], id2op[operation1], id2op[operation2]);
      setupTimes := setupTimes[key := duration];
    }

    /** `add_process_plan`: records the plans, each as the list of its operations' indices, in order. */
    method AddProcessPlan(plans: seq<seq<Handle>>)
      requires Valid()
      requires forall p, k :: 0 <= p < |plans| && 0 <= k < |plans[p]| ==> plans[p][k] in id2op
      modifies this
      ensures Valid()
      ensures |processPlans| == old(|processPlans|) + 1 && processPlans[..old(|processPlans|)] == old(processPlans)
      ensures var ids := processPlans[old(|processPlans|)];
              |ids| == |plans| && forall p :: 0 <= p < |plans| ==>
                |ids[p]| == |plans[p]| && forall k :: 0 <= k < |plans[p]| ==> ids[p][k] == old(id2op)[plans[p][k]]
      ensures Snapshot() == old(Snapshot()).(processPlans := processPlans)
    {
      var ops := id2op;
      var ids := seq(|plans|, p requires 0 <= p < |plans| =>
                          seq(|plans[p]|, k requires 0 <= k < |plans[p]| => ops[plans[p][k]]));
      processPlans := processPlans + [ids];
    }

    method SetPlanningHorizon(horizon: int)
      requires Valid()
      modifies this
      ensures Valid()
      ensures Snapshot() == old(Snapshot()).(planningHorizon := Some(horizon))
    {
      planningHorizon := Some(horizon);
    }

    method SetObjective(objective': Objective)
      requires Valid()
      modifies this
      ensures Valid()
      ensures Snapshot() == old(Snapshot()).(objective := objective')
    {
      objective := objective';
    }

    /**
     * `data()`: one (possibly empty) operation list per job, in job order, and
     * a machines x operations x operations setup-time array that is 0 except
     * at the recorded keys.
     */
    method Data() returns (d: ModelData)
      requires Valid()
      ensures fresh(d.setupTimes)
      ensures d.jobs == jobs && d.machines == machines && d.operations == operations
      ensures |d.job2ops| == |jobs| && forall j :: 0 <= j < |jobs| ==> d.job2ops[j] == ListAt(job2ops, j)
      ensures d.processingTimes == processingTimes && d.timingPrecedences == timingPrecedences
      ensures d.assignmentPrecedences == assignmentPrecedences && d.processPlans == processPlans
      ensures d.planningHorizon == planningHorizon && d.objective == objective
      ensures d.setupTimes.Length0 == |machines| && d.setupTimes.Length1 == |operations|
      ensures d.setupTimes.Length2 == |operations|
      ensures forall m, a, b :: 0 <= m < |machines| && 0 <= a < |operations| && 0 <= b < |operations| ==>
                d.setupTimes[m, a, b] == if (m, a, b) in setupTimes then setupTimes[(m, a, b)] else 0
    {
      var numJobs := |jobs|;
      var numOps := |operations|;
      var numMachines := |machines|;
      var lists := job2ops;
      var j2o := seq(numJobs, j => ListAt(lists, j));
      var setup := Dense.Dense3(setupTimes, numMachines, numOps, numOps, 0);
      d := ModelData(jobs, machines, operations, j2o, processingTimes, timingPrecedences, assignmentPrecedences,
                     setup, processPlans, planningHorizon, objective);
    }
  }
}
