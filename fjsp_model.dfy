/**
 * The step-by-step builder of `fjsp/Model.py` (the flexible job-shop
 * generation). Its `add_*` and `assign_*` calls grow lists and dictionaries;
 * `data()` turns the sparse dictionaries into dense arrays with defaults.
 */
module FjspModel {
  import opened Wrappers
  import opened Identity
  import opened Dense

  /** The default processing time of an operation on a machine without a recorded one. */
  const MAX_VALUE: int := 0x200_0000

  /** The arguments of the `Job(...)` call in `add_job`, in the order in which they are passed. */
  datatype Job = Job(releaseDate: int, deadline: Option<int>, name: Option<string>)

  datatype Machine = Machine(name: Option<string>)

  datatype Operation = Operation(
    earliestStart: Option<int>,
    latestStart: Option<int>,
    earliestEnd: Option<int>,
    latestEnd: Option<int>,
    name: Option<string>)

  /** The values of the string enumeration of precedence types. */
  const PrecedenceValues: seq<string> := [
    "start_at_start", "start_at_end", "start_before_start", "start_before_end",
    "end_at_start", "end_at_end", "end_before_start", "end_before_end",
    "previous", "same_unit", "different_unit"]

  /** The member names of the same enumeration. */
  const PrecedenceNames: seq<string> := [
    "START_AT_START", "START_AT_END", "START_BEFORE_START", "START_BEFORE_END",
    "END_AT_START", "END_AT_END", "END_BEFORE_START", "END_BEFORE_END",
    "PREVIOUS", "SAME_UNIT", "DIFFERENT_UNIT"]

  /**
   * Membership test of the enumeration's metaclass: an item belongs when it
   * is one of the values or one of the member names. An enumeration member is
   * a string equal to its value, so precedence entries are strings here.
   */
  predicate IsPrecedenceType(item: string)
  {
    item in PrecedenceValues || item in PrecedenceNames
  }

  datatype BuilderError = NegativeProcessingTime | NotPrecedenceType(item: string)

  /** Everything the builder holds, as one value. */
  datatype State = State(
    jobs: seq<Job>,
    machines: seq<Machine>,
    operations: seq<Operation>,
    job2ops: map<nat, seq<nat>>,
    machine2ops: map<nat, seq<nat>>,
    processingTimes: map<(nat, nat), int>,
    precedences: map<(nat, nat), seq<string>>,
    accessMatrix: map<(nat, nat), bool>,
    setupTimes: map<(nat, nat, nat), int>,
    id2job: map<Handle, nat>,
    id2machine: map<Handle, nat>,
    id2op: map<Handle, nat>)

  /** What `data()` hands to the problem-data constructor. */
  datatype ModelData = ModelData(
    jobs: seq<Job>,
    machines: seq<Machine>,
    operations: seq<Operation>,
    job2ops: seq<seq<nat>>,
    machine2ops: seq<seq<nat>>,
    processingTimes: array2<int>,
    precedences: map<(nat, nat), seq<string>>,
    accessMatrix: array2<bool>,
    setupTimes: array3<int>)

  /** The indices of the operations `ops`, in order. */
  function Indices(id2op: map<Handle, nat>, ops: seq<Handle>): (r: seq<nat>)
    requires forall k :: 0 <= k < |ops| ==> ops[k] in id2op
    ensures |r| == |ops| && forall k :: 0 <= k < |ops| ==> r[k] == id2op[ops[k]]
  {
    if ops == [] then [] else Indices(id2op, ops[..|ops| - 1]) + [id2op[ops[|ops| - 1]]]
  }

  /** The first entry that is not a precedence type, if any. */
  function FirstNonPrecedence(items: seq<string>): (r: Option<string>)
    ensures r.None? <==> forall k :: 0 <= k < |items| ==> IsPrecedenceType(items[k])
    ensures r.Some? ==> !IsPrecedenceType(r.value) && r.value in items
  {
    if items == [] then None
    else if !IsPrecedenceType(items[0]) then Some(items[0])
    else FirstNonPrecedence(items[1..])
  }

  class Model {
    var jobs: seq<Job>
    var machines: seq<Machine>
    var operations: seq<Operation>
    var job2ops: map<nat, seq<nat>>
    var machine2ops: map<nat, seq<nat>>
    var processingTimes: map<(nat, nat), int>
    var precedences: map<(nat, nat), seq<string>>
    var accessMatrix: map<(nat, nat), bool>
    var setupTimes: map<(nat, nat, nat), int>
    var id2job: map<Handle, nat>
    var id2machine: map<Handle, nat>
    var id2op: map<Handle, nat>

    function Snapshot(): State
      reads this
    {
      State(jobs, machines, operations, job2ops, machine2ops, processingTimes, precedences, accessMatrix,
            setupTimes, id2job, id2machine, id2op)
    }

    /**
     * The identity maps are injective and point into their lists, and every
     * recorded index is the index of an existing job, machine or operation.
     */
    ghost predicate Valid()
      reads this
    {
      && Injective(id2job) && Injective(id2machine) && Injective(id2op)
      && Below(id2job, |jobs|) && Below(id2machine, |machines|) && Below(id2op, |operations|)
      && (forall j :: j in job2ops ==> j < |jobs| && forall k :: 0 <= k < |job2ops[j]| ==> job2ops[j][k] < |operations|)
      && (forall m :: m in machine2ops ==>
            m < |machines| && forall k :: 0 <= k < |machine2ops[m]| ==> machine2ops[m][k] < |operations|)
      && (forall k :: k in processingTimes ==> k.0 < |operations| && k.1 < |machines|)
      && (forall k :: k in precedences ==> k.0 < |operations| && k.1 < |operations|)
      && (forall k :: k in accessMatrix ==> k.0 < |machines| && k.1 < |machines|)
      && (forall k :: k in setupTimes ==> k.0 < |operations| && k.1 < |operations| && k.2 < |machines|)
    }

    constructor ()
      ensures Valid()
      ensures Snapshot() == State([], [], [], map[], map[], map[], map[], map[], map[], map[], map[], map[])
    {
      jobs, machines, operations := [], [], [];
      job2ops, machine2ops, processingTimes, precedences, accessMatrix, setupTimes := map[], map[], map[], map[], map[], map[];
      id2job, id2machine, id2op := map[], map[], map[];
    }

    /** `add_job`: appends the job and maps the new object to the old number of jobs. */
    method AddJob(releaseDate: int := 0, deadline: Option<int> := None, name: Option<string> := None)
      returns (job: Handle)
      requires Valid()
      modifies this
      ensures Valid() && fresh(job)
      ensures Snapshot() == old(Snapshot()).(jobs := old(jobs) + [Job(releaseDate, deadline, name)],
                                             id2job := old(id2job)[job := old(|jobs|)])
    {
      job := new Handle();
      id2job := id2job[job := |jobs|];
      jobs := jobs + [Job(releaseDate, deadline, name)];
    }

    /** `add_machine`: appends the machine and maps the new object to the old number of machines. */
    method AddMachine(name: Option<string> := None) returns (machine: Handle)
      requires Valid()
      modifies this
      ensures Valid() && fresh(machine)
      ensures Snapshot() == old(Snapshot()).(machines := old(machines) + [Machine(name)],
                                             id2machine := old(id2machine)[machine := old(|machines|)])
    {
      machine := new Handle();
      id2machine := id2machine[machine := |machines|];
      machines := machines + [Machine(name)];
    }

    /** `add_operation`: appends the operation and maps the new object to the old number of operations. */
    method AddOperation(earliestStart: Option<int> := None, latestStart: Option<int> := None,
                        earliestEnd: Option<int> := None, latestEnd: Option<int> := None,
                        name: Option<string> := None) returns (operation: Handle)
      requires Valid()
      modifies this
      ensures Valid() && fresh(operation)
      ensures Snapshot() == old(Snapshot()).(
                operations := old(operations) + [Operation(earliestStart, latestStart, earliestEnd, latestEnd, name)],
                id2op := old(id2op)[operation := old(|operations|)])
    {
      operation := new Handle();
      id2op := id2op[operation := |operations|];
      operations := operations + [Operation(earliestStart, latestStart, earliestEnd, latestEnd, name)];
    }

    /** `assign_job_operations`: extends the job's operation list with the given operations, in order. */
    method AssignJobOperations(job: Handle, ops: seq<Handle>)
      requires Valid()
      requires job in id2job && forall k :: 0 <= k < |ops| ==> ops[k] in id2op
      modifies this
      ensures Valid()
      ensures var idx := old(id2job)[job];
              Snapshot() == old(Snapshot()).(
                job2ops := old(job2ops)[idx := ListAt(old(job2ops), idx) + Indices(old(id2op), ops)])
    {
      var idx := id2job[job];
      job2ops := job2ops[idx := ListAt(job2ops, idx) + Indices(id2op, ops)];
    }

    /** `assign_machine_operations`: extends the machine's operation list with the given operations, in order. */
    method AssignMachineOperations(machine: Handle, ops: seq<Handle>)
      requires Valid()
      requires machine in id2machine && forall k :: 0 <= k < |ops| ==> ops[k] in id2op
      modifies this
      ensures Valid()
      ensures var idx := old(id2machine)[machine];
              Snapshot() == old(Snapshot()).(
                machine2ops := old(machine2ops)[idx := ListAt(old(machine2ops), idx) + Indices(old(id2op), ops)])
    {
      var idx := id2machine[machine];
      machine2ops := machine2ops[idx := ListAt(machine2ops, idx) + Indices(id2op, ops)];
    }

    /** `add_processing_time`: a negative duration is refused before any change; a repeated key is overwritten. */
    method AddProcessingTime(operation: Handle, machine: Handle, duration: int) returns (r: Result<(), BuilderError>)
      requires Valid()
      requires operation in id2op && machine in id2machine
      modifies this
      ensures Valid()
      ensures r.Err? <==> duration < 0
      ensures r.Err? ==> Snapshot() == old(Snapshot())
      ensures r.Ok? ==> Snapshot() == old(Snapshot()).(
                processingTimes := old(processingTimes)[(old(id2op)[operation], old(id2machine)[machine]) := duration])
    {
      if duration < 0 {
        return Err(NegativeProcessingTime);
      }
      var opIdx := id2op[operation];
      var machineIdx := id2machine[machine];
      processingTimes := processingTimes[(opIdx, machineIdx) := duration];
      return Ok(());
    }

    /**
     * `add_precedence`: refuses, before any change, a list with an entry that
     * is not a precedence type; otherwise the list REPLACES whatever was
     * stored for the operation pair.
     */
    method AddPrecedence(operation1: Handle, operation2: Handle, precedenceTypes: seq<string>)
      returns (r: Result<(), BuilderError>)
      requires Valid()
      requires operation1 in id2op && operation2 in id2op
      modifies this
      ensures Valid()
      ensures r.Err? <==> exists k :: 0 <= k < |precedenceTypes| && !IsPrecedenceType(precedenceTypes[k])
      ensures r.Err? ==> Snapshot() == old(Snapshot())
      ensures r.Ok? ==> Snapshot() == old(Snapshot()).(
                precedences := old(precedences)[(old(id2op)[operation1], old(id2op)[operation2]) := precedenceTypes])
    {
      var bad := FirstNonPrecedence(precedenceTypes);
      if bad.Some? {
        return Err(NotPrecedenceType(bad.value));
      }
      var op1 := id2op[operation1];
      var op2 := id2op[operation2];
      precedences := precedences[(op1, op2) := precedenceTypes];
      return Ok(());
    }

    /** `add_access_constraint`: records whether the second machine is accessible from the first (default: not). */
    method AddAccessConstraint(machine1: Handle, machine2: Handle, isAccessible: bool := false)
      requires Valid()
      requires machine1 in id2machine && machine2 in id2machine
      modifies this
      ensures Valid()
      ensures Snapshot() == old(Snapshot()).(
                accessMatrix := old(accessMatrix)[(old(id2machine)[machine1], old(id2machine)[machine2]) := isAccessible])
    {
      var idx1 := id2machine[machine1];
      var idx2 := id2machine[machine2];
      accessMatrix := accessMatrix[(idx1, idx2) := isAccessible];
    }

    /** `add_setup_time`: stores the duration under (op1, op2, machine), overwriting any earlier value. */
    method AddSetupTime(operation1: Handle, operation2: Handle, machine: Handle, duration: int)
      requires Valid()
      requires operation1 in id2op && operation2 in id2op && machine in id2machine
      modifies this
      ensures Valid()
      ensures Snapshot() == old(Snapshot()).(
                setupTimes := old(setupTimes)[(old(id2op)[operation1], old(id2op)[operation2], old(id2machine)[machine]) := duration])
    {
      var key := (id2op[operation1], id2op[operation2], id2machine[machine]);
      setupTimes := setupTimes[key := duration];
    }

    /**
     * `data()`: one operation list per job and per machine, an operations x
     * machines processing-time array (MAX_VALUE where nothing is recorded), a
     * machines x machines access array (true where nothing is recorded) and an
     * operations x operations x machines setup array (0 where nothing is recorded).
     */
    method Data() returns (d: ModelData)
      requires Valid()
      ensures fresh(d.processingTimes) && fresh(d.accessMatrix) && fresh(d.setupTimes)
      ensures d.jobs == jobs && d.machines == machines && d.operations == operations
      ensures |d.job2ops| == |jobs| && forall j :: 0 <= j < |jobs| ==> d.job2ops[j] == ListAt(job2ops, j)
      ensures |d.machine2ops| == |machines| && forall m :: 0 <= m < |machines| ==> d.machine2ops[m] == ListAt(machine2ops, m)
      ensures d.precedences == precedences
      ensures d.processingTimes.Length0 == |operations| && d.processingTimes.Length1 == |machines|
      ensures forall o, m :: 0 <= o < |operations| && 0 <= m < |machines| ==>
                d.processingTimes[o, m] == if (o, m) in processingTimes then processingTimes[(o, m)] else MAX_VALUE
      ensures d.accessMatrix.Length0 == |machines| && d.accessMatrix.Length1 == |machines|
      ensures forall m1, m2 :: 0 <= m1 < |machines| && 0 <= m2 < |machines| ==>
                d.accessMatrix[m1, m2] == if (m1, m2) in accessMatrix then accessMatrix[(m1, m2)] else true
      ensures d.setupTimes.Length0 == |operations| && d.setupTimes.Length1 == |operations|
      ensures d.setupTimes.Length2 == |machines|
      ensures forall a, b, m :: 0 <= a < |operations| && 0 <= b < |operations| && 0 <= m < |machines| ==>
                d.setupTimes[a, b, m] == if (a, b, m) in setupTimes then setupTimes[(a, b, m)] else 0
    {
      var numOps := |operations|;
      var numMachines := |machines|;
      var jobLists := job2ops;
      var machineLists := machine2ops;
      var j2o := seq(|jobs|, j => ListAt(jobLists, j));
      var m2o := seq(numMachines, m => ListAt(machineLists, m));

      var processing := Dense.Dense2(processingTimes, numOps, numMachines, MAX_VALUE);
      var access := Dense.Dense2(accessMatrix, numMachines, numMachines, true);
      var setup := Dense.Dense3(setupTimes, numOps, numOps, numMachines, 0);
      d := ModelData(jobs, machines, operations, j2o, m2o, processing, precedences, access, setup);
    }
  }
}
