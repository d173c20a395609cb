/**
 * The problem description of `pyjobshop/ProblemData.py`: jobs, resources
 * (plain resources and machines), tasks, processing modes, the objective, and
 * the problem data that bundles them. The Python constructors raise
 * `ValueError` on malformed arguments; here each constructor is a function
 * returning a `Result` whose error names the check that failed.
 */
module ProblemData {
  import opened Wrappers
  import opened Constants
  import opened Sets

  /** The `ValueError`s raised by the constructors and by validation. */
  datatype DataError =
    | NegativeWeight
    | NegativeReleaseDate
    | NegativeDeadline
    | ReleaseAfterDeadline
    | NegativeDueDate
    | NegativeCapacity
    | StartWindowEmpty
    | EndWindowEmpty
    | DuplicateResources
    | NegativeDuration
    | NegativeDemand
    | DemandsLengthMismatch
    | JobUnknownTask
    | ModeUnknownTask(mode: nat)
    | ModeUnknownResource(mode: nat)
    | MissingModes(tasks: set<int>)
    | InfeasibleModes(task: int)
    | NegativeSetupTimes
    | SetupTimesShape
    | SetupTimesNotMachine
    | NegativeHorizon
    | MissingDueDates

  // ---------------------------------------------------------------- Job

  datatype Job = Job(
    weight: int,
    releaseDate: int,
    deadline: int,
    dueDate: Option<int>,
    tasks: seq<int>,
    name: string)

  /** The conditions under which `Job.__init__` does not raise. */
  predicate JobArgsValid(weight: int, releaseDate: int, deadline: int, dueDate: Option<int>)
  {
    && weight >= 0
    && releaseDate >= 0
    && deadline >= 0
    && releaseDate <= deadline
    && (dueDate.Some? ==> dueDate.value >= 0)
  }

  function NewJob(
    weight: int := 1,
    releaseDate: int := 0,
    deadline: int := MAX_VALUE,
    dueDate: Option<int> := None,
    tasks: Option<seq<int>> := None,
    name: string := ""): (r: Result<Job, DataError>)
    ensures r.Ok? <==> JobArgsValid(weight, releaseDate, deadline, dueDate)
    ensures r.Ok? ==> r.value == Job(weight, releaseDate, deadline, dueDate, tasks.GetOr([]), name)
    ensures weight < 0 ==> r == Err(NegativeWeight)
    ensures weight >= 0 && releaseDate >= 0 && deadline >= 0 && releaseDate > deadline
            ==> r == Err(ReleaseAfterDeadline)
  {
    if weight < 0 then Err(NegativeWeight)
    else if releaseDate < 0 then Err(NegativeReleaseDate)
    else if deadline < 0 then Err(NegativeDeadline)
    else if releaseDate > deadline then Err(ReleaseAfterDeadline)
    else if dueDate.Some? && dueDate.value < 0 then Err(NegativeDueDate)
    else Ok(Job(weight, releaseDate, deadline, dueDate, tasks.GetOr([]), name))
  }

  /** `Job.add_task`: the task index is appended; nothing else changes. */
  function AddTask(job: Job, idx: int): (r: Job)
    ensures r.tasks == job.tasks + [idx] && |r.tasks| == |job.tasks| + 1
    ensures r.(tasks := job.tasks) == job
    ensures JobArgsValid(r.weight, r.releaseDate, r.deadline, r.dueDate)
            == JobArgsValid(job.weight, job.releaseDate, job.deadline, job.dueDate)
  {
    job.(tasks := job.tasks + [idx])
  }

  // ---------------------------------------------------------- Resources

  /**
   * A plain resource, or a `Machine`: the subclass whose capacity is always 0
   * and that is always renewable.
   */
  datatype Resource =
    | Resource(cap: int, renew: bool, name: string)
    | Machine(name: string)
  {
    function Capacity(): int
    {
      if Machine? then 0 else cap
    }

    function Renewable(): bool
    {
      if Machine? then true else renew
    }
  }

  function NewResource(capacity: int, renewable: bool := true, name: string := ""): (r: Result<Resource, DataError>)
    ensures r.Ok? <==> capacity >= 0
    ensures r.Err? ==> r.error == NegativeCapacity
    ensures r.Ok? ==> r.value.Capacity() == capacity && r.value.Renewable() == renewable
                      && r.value.name == name && !r.value.Machine?
  {
    if capacity < 0 then Err(NegativeCapacity) else Ok(Resource(capacity, renewable, name))
  }

  function NewMachine(name: string := ""): (r: Resource)
    ensures r.Machine? && r.name == name
    ensures r.Capacity() == 0 && r.Renewable()
  {
    Machine(name)
  }

  // --------------------------------------------------------------- Task

  datatype Task = Task(
    earliestStart: int,
    latestStart: int,
    earliestEnd: int,
    latestEnd: int,
    fixedDuration: bool,
    name: string)

  function NewTask(
    earliestStart: int := 0,
    latestStart: int := MAX_VALUE,
    earliestEnd: int := 0,
    latestEnd: int := MAX_VALUE,
    fixedDuration: bool := true,
    name: string := ""): (r: Result<Task, DataError>)
    ensures r.Ok? <==> earliestStart <= latestStart && earliestEnd <= latestEnd
    ensures earliestStart > latestStart ==> r == Err(StartWindowEmpty)
    ensures earliestStart <= latestStart && earliestEnd > latestEnd ==> r == Err(EndWindowEmpty)
    ensures r.Ok? ==> r.value == Task(earliestStart, latestStart, earliestEnd, latestEnd, fixedDuration, name)
  {
    if earliestStart > latestStart then Err(StartWindowEmpty)
    else if earliestEnd > latestEnd then Err(EndWindowEmpty)
    else Ok(Task(earliestStart, latestStart, earliestEnd, latestEnd, fixedDuration, name))
  }

  // --------------------------------------------------------------- Mode

  datatype Mode = Mode(task: int, resources: seq<int>, duration: int, demands: seq<int>)

  predicate Distinct(s: seq<int>)
  {
    forall i, j :: 0 <= i < j < |s| ==> s[i] != s[j]
  }

  function Elements(s: seq<int>): set<int>
  {
    set x | x in s
  }

  /** `len(set(s)) == len(s)` holds exactly when `s` has no repeated element. */
  lemma {:induction false} DistinctIffNoShrink(s: seq<int>)
    ensures |Elements(s)| == |s| <==> Distinct(s)
    ensures |Elements(s)| <= |s|
  {
    if s != [] {
      var t := s[1..];
      DistinctIffNoShrink(t);
      assert Elements(s) == {s[0]} + Elements(t);
      if s[0] in t {
        assert Elements(s) == Elements(t);
        var j :| 0 <= j < |t| && t[j] == s[0];
        assert s[0] == s[j + 1];
      } else {
        assert |Elements(s)| == |Elements(t)| + 1;
        if Distinct(t) {
          forall i, j | 0 <= i < j < |s| ensures s[i] != s[j] {
            if i > 0 { assert s[i] == t[i - 1] && s[j] == t[j - 1]; }
            else { assert s[j] == t[j - 1]; }
          }
        } else {
          var i, j :| 0 <= i < j < |t| && t[i] == t[j];
          assert s[i + 1] == s[j + 1];
        }
      }
    }
  }

  function NewMode(task: int, resources: seq<int>, duration: int, demands: Option<seq<int>> := None): (r: Result<Mode, DataError>)
    ensures var dem := demands.GetOr(seq(|resources|, _ => 0));
            r.Ok? <==> Distinct(resources) && duration >= 0
                       && (forall k :: 0 <= k < |dem| ==> dem[k] >= 0) && |resources| == |dem|
    ensures !Distinct(resources) ==> r == Err(DuplicateResources)
    ensures r.Ok? ==> r.value == Mode(task, resources, duration, demands.GetOr(seq(|resources|, _ => 0)))
    ensures r.Ok? && demands.None? ==> forall k :: 0 <= k < |resources| ==> r.value.demands[k] == 0
  {
    DistinctIffNoShrink(resources);
    var dem := demands.GetOr(seq(|resources|, _ => 0));
    if |Elements(resources)| != |resources| then Err(DuplicateResources)
    else if duration < 0 then Err(NegativeDuration)
    else if exists k :: 0 <= k < |dem| && dem[k] < 0 then Err(NegativeDemand)
    else if |resources| != |dem| then Err(DemandsLengthMismatch)
    else Ok(Mode(task, resources, duration, dem))
  }

  /** `Mode.__eq__` compares task, resources, duration and demands. */
  predicate ModeEquals(a: Mode, b: Mode)
    ensures ModeEquals(a, b) <==> a == b
  {
    a.task == b.task && a.resources == b.resources && a.duration == b.duration && a.demands == b.demands
  }

  // -------------------------------------------------------- Constraints

  /** The `Constraint` enumeration of task-pair constraints. */
  datatype Constraint =
    | StartAtStart
    | StartAtEnd
    | StartBeforeStart
    | StartBeforeEnd
    | EndAtStart
    | EndAtEnd
    | EndBeforeStart
    | EndBeforeEnd
    | IdenticalResources
    | DifferentResources
    | Previous
    | Before

  // ---------------------------------------------------------- Objective

  datatype Objective = Objective(
    weightMakespan: int,
    weightTardyJobs: int,
    weightTotalFlowTime: int,
    weightTotalTardiness: int,
    weightTotalEarliness: int)

  /** The five objective components, to speak of "the weight of component c". */
  datatype Component = Makespan | TardyJobs | TotalFlowTime | TotalTardiness | TotalEarliness

  function Weight(o: Objective, c: Component): int
  {
    match c
    case Makespan => o.weightMakespan
    case TardyJobs => o.weightTardyJobs
    case TotalFlowTime => o.weightTotalFlowTime
    case TotalTardiness => o.weightTotalTardiness
    case TotalEarliness => o.weightTotalEarliness
  }

  /** The objective of the five class-method factories: weight 1 on one component. */
  predicate OnlyComponent(o: Objective, c: Component)
  {
    forall d: Component :: Weight(o, d) == if d == c then 1 else 0
  }

  function ObjectiveMakespan(): (o: Objective)
    ensures OnlyComponent(o, Makespan)
  {
    Objective(1, 0, 0, 0, 0)
  }

  function ObjectiveTotalFlowTime(): (o: Objective)
    ensures OnlyComponent(o, TotalFlowTime)
  {
    Objective(0, 0, 1, 0, 0)
  }

  function ObjectiveTardyJobs(): (o: Objective)
    ensures OnlyComponent(o, TardyJobs)
  {
    Objective(0, 1, 0, 0, 0)
  }

  function ObjectiveTotalTardiness(): (o: Objective)
    ensures OnlyComponent(o, TotalTardiness)
  {
    Objective(0, 0, 0, 1, 0)
  }

  function ObjectiveTotalEarliness(): (o: Objective)
    ensures OnlyComponent(o, TotalEarliness)
  {
    Objective(0, 0, 0, 0, 1)
  }

  // -------------------------------------------------------- ProblemData

  /** A setup-time array indexed by resource, then by two task indices. */
  type SetupTimes = seq<seq<seq<int>>>

  datatype ProblemData = ProblemData(
    jobs: seq<Job>,
    resources: seq<Resource>,
    tasks: seq<Task>,
    modes: seq<Mode>,
    constraints: map<(int, int), seq<Constraint>>,
    setupTimes: Option<SetupTimes>,
    horizon: int,
    objective: Objective)
  {
    function NumJobs(): nat { |jobs| }
    function NumResources(): nat { |resources| }
    function NumTasks(): nat { |tasks| }
    function NumModes(): nat { |modes| }
  }

  // ---- the checks of `_validate_parameters`, as predicates

  predicate JobTasksKnown(d: ProblemData)
  {
    forall j, k :: 0 <= j < |d.jobs| && 0 <= k < |d.jobs[j].tasks| ==> 0 <= d.jobs[j].tasks[k] < |d.tasks|
  }

  predicate ModeResourcesKnown(d: ProblemData, m: Mode)
  {
    forall k :: 0 <= k < |m.resources| ==> 0 <= m.resources[k] < |d.resources|
  }

  predicate ModeRefsKnown(d: ProblemData, m: Mode)
  {
    0 <= m.task < |d.tasks| && ModeResourcesKnown(d, m)
  }

  predicate AllModeRefsKnown(d: ProblemData)
  {
    forall i :: 0 <= i < |d.modes| ==> ModeRefsKnown(d, d.modes[i])
  }

  /** The first mode (from index `i` on) that references an unknown task or resource. */
  function FirstBadMode(d: ProblemData, i: nat): Option<DataError>
    requires i <= |d.modes|
    decreases |d.modes| - i
  {
    if i == |d.modes| then None
    else if !(0 <= d.modes[i].task < |d.tasks|) then Some(ModeUnknownTask(i))
    else if !ModeResourcesKnown(d, d.modes[i]) then Some(ModeUnknownResource(i))
    else FirstBadMode(d, i + 1)
  }

  predicate HasMode(d: ProblemData, t: int)
  {
    exists i :: 0 <= i < |d.modes| && d.modes[i].task == t
  }

  function TasksWithoutModes(d: ProblemData): set<int>
  {
    set t | 0 <= t < |d.tasks| && !HasMode(d, t)
  }

  /** Some demand of the mode exceeds the capacity of the paired resource (`zip` stops at the shorter list). */
  predicate Infeasible(d: ProblemData, m: Mode)
    requires ModeResourcesKnown(d, m)
  {
    exists k :: 0 <= k < |m.demands| && k < |m.resources| && m.demands[k] > d.resources[m.resources[k]].Capacity()
  }

  predicate AllInfeasible(d: ProblemData, t: int)
    requires AllModeRefsKnown(d)
  {
    forall i :: 0 <= i < |d.modes| && d.modes[i].task == t ==> Infeasible(d, d.modes[i])
  }

  /** The distinct tasks of `s`, in order of first appearance: the key order of a `Counter` filled from `s`. */
  function TaskOrder(s: seq<Mode>): seq<int>
  {
    if s == [] then []
    else
      var o := TaskOrder(s[..|s| - 1]);
      if s[|s| - 1].task in o then o else o + [s[|s| - 1].task]
  }

  /** The first task of `ts` all of whose modes are infeasible. */
  function FirstAllInfeasible(d: ProblemData, ts: seq<int>): Option<DataError>
    requires AllModeRefsKnown(d)
  {
    if ts == [] then None
    else if AllInfeasible(d, ts[0]) then Some(InfeasibleModes(ts[0]))
    else FirstAllInfeasible(d, ts[1..])
  }

  predicate SetupNonNegative(s: SetupTimes)
  {
    forall r, i, j :: 0 <= r < |s| && 0 <= i < |s[r]| && 0 <= j < |s[r][i]| ==> s[r][i][j] >= 0
  }

  predicate HasShape(s: SetupTimes, numResources: nat, numTasks: nat)
  {
    |s| == numResources
    && forall r :: 0 <= r < |s| ==> |s[r]| == numTasks && forall i :: 0 <= i < |s[r]| ==> |s[r][i]| == numTasks
  }

  predicate AnyPositive(m: seq<seq<int>>)
  {
    exists i, j :: 0 <= i < |m| && 0 <= j < |m[i]| && m[i][j] > 0
  }

  predicate SetupOnlyOnMachines(d: ProblemData, s: SetupTimes)
    requires |s| == |d.resources|
  {
    forall r :: 0 <= r < |s| && AnyPositive(s[r]) ==> d.resources[r].Machine?
  }

  function SetupError(d: ProblemData): Option<DataError>
  {
    match d.setupTimes
    case None => None
    case Some(s) =>
      if !SetupNonNegative(s) then Some(NegativeSetupTimes)
      else if !HasShape(s, |d.resources|, |d.tasks|) then Some(SetupTimesShape)
      else if !SetupOnlyOnMachines(d, s) then Some(SetupTimesNotMachine)
      else None
  }

  predicate NeedsDueDates(o: Objective)
  {
    o.weightTardyJobs > 0 || o.weightTotalTardiness > 0 || o.weightTotalEarliness > 0
  }

  predicate AllDueDates(d: ProblemData)
  {
    forall j :: 0 <= j < |d.jobs| ==> d.jobs[j].dueDate.Some?
  }

  /** The outcome of `_validate_parameters`: the first check that fails, in the source's order. */
  function CheckParameters(d: ProblemData): Result<(), DataError>
  {
    if !JobTasksKnown(d) then Err(JobUnknownTask)
    else if FirstBadMode(d, 0).Some? then Err(FirstBadMode(d, 0).value)
    else
      FirstBadModeNone(d, 0);
      if TasksWithoutModes(d) != {} then Err(MissingModes(TasksWithoutModes(d)))
      else if FirstAllInfeasible(d, TaskOrder(d.modes)).Some? then Err(FirstAllInfeasible(d, TaskOrder(d.modes)).value)
      else if SetupError(d).Some? then Err(SetupError(d).value)
      else if d.horizon < 0 then Err(NegativeHorizon)
      else if NeedsDueDates(d.objective) && !AllDueDates(d) then Err(MissingDueDates)
      else Ok(())
  }

  /** Everything that validated problem data satisfies, stated directly. */
  predicate WellFormed(d: ProblemData)
  {
    && JobTasksKnown(d)
    && AllModeRefsKnown(d)
    && (forall t :: 0 <= t < |d.tasks| ==> HasMode(d, t))
    && (forall i :: 0 <= i < |d.modes| ==> !AllInfeasible(d, d.modes[i].task))
    && (d.setupTimes.Some? ==>
          var s := d.setupTimes.value;
          SetupNonNegative(s) && HasShape(s, |d.resources|, |d.tasks|) && SetupOnlyOnMachines(d, s))
    && d.horizon >= 0
    && (NeedsDueDates(d.objective) ==> AllDueDates(d))
  }

  // ---- lemmas connecting the scan functions to the direct statements

  lemma {:induction false} FirstBadModeNone(d: ProblemData, i: nat)
    requires i <= |d.modes|
    ensures FirstBadMode(d, i).None? <==> forall k :: i <= k < |d.modes| ==> ModeRefsKnown(d, d.modes[k])
    decreases |d.modes| - i
  {
    if i < |d.modes| {
      FirstBadModeNone(d, i + 1);
    }
  }

  /** A reported bad mode is the first mode that references an unknown task or resource. */
  lemma {:induction false} FirstBadModeIsFirst(d: ProblemData, i: nat)
    requires i <= |d.modes| && FirstBadMode(d, i).Some?
    ensures var e := FirstBadMode(d, i).value;
            (e.ModeUnknownTask? || e.ModeUnknownResource?)
            && i <= e.mode < |d.modes|
            && (e.ModeUnknownTask? <==> !(0 <= d.modes[e.mode].task < |d.tasks|))
            && !ModeRefsKnown(d, d.modes[e.mode])
            && forall k :: i <= k < e.mode ==> ModeRefsKnown(d, d.modes[k])
    decreases |d.modes| - i
  {
    if ModeRefsKnown(d, d.modes[i]) {
      FirstBadModeIsFirst(d, i + 1);
    }
  }

  lemma {:induction false} TaskOrderMembers(s: seq<Mode>, t: int)
    ensures t in TaskOrder(s) <==> exists i :: 0 <= i < |s| && s[i].task == t
  {
    if s != [] {
      var p := s[..|s| - 1];
      TaskOrderMembers(p, t);
      if exists i :: 0 <= i < |p| && p[i].task == t {
        var i :| 0 <= i < |p| && p[i].task == t;
        assert s[i].task == t;
      }
      if exists i :: 0 <= i < |s| && s[i].task == t {
        var i :| 0 <= i < |s| && s[i].task == t;
        if i < |p| { assert p[i].task == t; }
      }
    }
  }

  lemma {:induction false} FirstAllInfeasibleNone(d: ProblemData, ts: seq<int>)
    requires AllModeRefsKnown(d)
    ensures FirstAllInfeasible(d, ts).None? <==> forall k :: 0 <= k < |ts| ==> !AllInfeasible(d, ts[k])
  {
    if ts != [] {
      FirstAllInfeasibleNone(d, ts[1..]);
      assert forall k :: 1 <= k < |ts| ==> ts[k] == ts[1..][k - 1];
    }
  }

  /** Validation succeeds exactly on well-formed problem data. */
  lemma {:induction false} CheckParametersOk(d: ProblemData)
    ensures CheckParameters(d).Ok? <==> WellFormed(d)
  {
    FirstBadModeNone(d, 0);
    if JobTasksKnown(d) && AllModeRefsKnown(d) {
      FirstAllInfeasibleNone(d, TaskOrder(d.modes));
      var feasibleAll := forall i :: 0 <= i < |d.modes| ==> !AllInfeasible(d, d.modes[i].task);
      var feasibleOrder := forall k :: 0 <= k < |TaskOrder(d.modes)| ==> !AllInfeasible(d, TaskOrder(d.modes)[k]);
      if feasibleAll {
        forall k | 0 <= k < |TaskOrder(d.modes)| ensures !AllInfeasible(d, TaskOrder(d.modes)[k]) {
          TaskOrderMembers(d.modes, TaskOrder(d.modes)[k]);
        }
      }
      if feasibleOrder {
        forall i | 0 <= i < |d.modes| ensures !AllInfeasible(d, d.modes[i].task) {
          TaskOrderMembers(d.modes, d.modes[i].task);
        }
      }
      assert feasibleAll <==> feasibleOrder;
      var missing := forall t :: 0 <= t < |d.tasks| ==> HasMode(d, t);
      if missing {
        assert forall t :: t !in TasksWithoutModes(d);
      }
      if TasksWithoutModes(d) == {} {
        forall t | 0 <= t < |d.tasks| ensures HasMode(d, t) {
          assert t !in TasksWithoutModes(d);
        }
      }
    }
  }

  // ---- the imperative validation of `_validate_parameters`

  function Get(m: map<int, nat>, k: int): nat
  {
    if k in m then m[k] else 0
  }

  /** Number of modes of `s` that belong to task `t`. */
  function CountModes(s: seq<Mode>, t: int): nat
  {
    if s == [] then 0 else CountModes(s[..|s| - 1], t) + (if s[|s| - 1].task == t then 1 else 0)
  }

  /** Number of infeasible modes of `s` that belong to task `t`. */
  function CountInfeasible(d: ProblemData, s: seq<Mode>, t: int): nat
    requires forall i :: 0 <= i < |s| ==> ModeResourcesKnown(d, s[i])
  {
    if s == [] then 0
    else CountInfeasible(d, s[..|s| - 1], t) + (if s[|s| - 1].task == t && Infeasible(d, s[|s| - 1]) then 1 else 0)
  }

  /** The two counters agree exactly when every mode of `t` is infeasible. */
  lemma {:induction false} CountsAgree(d: ProblemData, s: seq<Mode>, t: int)
    requires forall i :: 0 <= i < |s| ==> ModeResourcesKnown(d, s[i])
    ensures CountInfeasible(d, s, t) <= CountModes(s, t)
    ensures CountInfeasible(d, s, t) == CountModes(s, t)
            <==> forall i :: 0 <= i < |s| && s[i].task == t ==> Infeasible(d, s[i])
  {
    if s != [] {
      var p := s[..|s| - 1];
      CountsAgree(d, p, t);
      assert forall i :: 0 <= i < |p| ==> p[i] == s[i];
    }
  }

  method CheckJobs(d: ProblemData) returns (e: Option<DataError>)
    ensures e.None? <==> JobTasksKnown(d)
    ensures e.Some? ==> e.value == JobUnknownTask
  {
    var j := 0;
    while j < |d.jobs|
      invariant 0 <= j <= |d.jobs|
      invariant forall a, k :: 0 <= a < j && 0 <= k < |d.jobs[a].tasks| ==> 0 <= d.jobs[a].tasks[k] < |d.tasks|
    {
      var ts := d.jobs[j].tasks;
      if exists k :: 0 <= k < |ts| && (ts[k] < 0 || ts[k] >= |d.tasks|) {
        return Some(JobUnknownTask);
      }
      j := j + 1;
    }
    return None;
  }

  method CheckModes(d: ProblemData) returns (e: Option<DataError>)
    ensures e == FirstBadMode(d, 0)
  {
    var i := 0;
    while i < |d.modes|
      invariant 0 <= i <= |d.modes|
      invariant FirstBadMode(d, 0) == FirstBadMode(d, i)
    {
      var mode := d.modes[i];
      if mode.task < 0 || mode.task >= |d.tasks| {
        return Some(ModeUnknownTask(i));
      }
      var k := 0;
      while k < |mode.resources|
        invariant 0 <= k <= |mode.resources|
        invariant forall q :: 0 <= q < k ==> 0 <= mode.resources[q] < |d.resources|
      {
        if mode.resources[k] < 0 || mode.resources[k] >= |d.resources| {
          return Some(ModeUnknownResource(i));
        }
        k := k + 1;
      }
      i := i + 1;
    }
    return None;
  }

  /** The `Counter` pass over the modes, then over the counted tasks in key order. */
  method CheckFeasibility(d: ProblemData) returns (e: Option<DataError>)
    requires AllModeRefsKnown(d)
    ensures e == FirstAllInfeasible(d, TaskOrder(d.modes))
  {
    var numModes, infeasibleModes, order := CountModePass(d);
    var ts := order;
    while ts != []
      invariant FirstAllInfeasible(d, ts) == FirstAllInfeasible(d, order)
      invariant forall t :: t in ts ==> t in order
    {
      var t := ts[0];
      CountsAgree(d, d.modes, t);
      if Get(infeasibleModes, t) == Get(numModes, t) {
        return Some(InfeasibleModes(t));
      }
      ts := ts[1..];
    }
    return None;
  }

  /** The two counters over the modes, with their keys in order of first insertion. */
  method CountModePass(d: ProblemData) returns (numModes: map<int, nat>, infeasibleModes: map<int, nat>, order: seq<int>)
    requires AllModeRefsKnown(d)
    ensures order == TaskOrder(d.modes)
    ensures forall t :: Get(numModes, t) == CountModes(d.modes, t)
    ensures forall t :: Get(infeasibleModes, t) == CountInfeasible(d, d.modes, t)
  {
    infeasibleModes := map[];
    numModes := map[];
    order := [];
    var i := 0;
    while i < |d.modes|
      invariant 0 <= i <= |d.modes|
      invariant order == TaskOrder(d.modes[..i])
      invariant forall t :: t in numModes <==> t in order
      invariant forall t :: Get(numModes, t) == CountModes(d.modes[..i], t)
      invariant forall t :: Get(infeasibleModes, t) == CountInfeasible(d, d.modes[..i], t)
    {
      var mode := d.modes[i];
      assert d.modes[..i + 1][..i] == d.modes[..i];
      if mode.task !in numModes {
        order := order + [mode.task];
      }
      numModes := numModes[mode.task := Get(numModes, mode.task) + 1];
      var bad := Infeasible(d, mode);
      infeasibleModes := infeasibleModes[mode.task := Get(infeasibleModes, mode.task) + if bad then 1 else 0];
      i := i + 1;
    }
    assert d.modes[..i] == d.modes;
  }

  method CheckSetupTimes(d: ProblemData) returns (e: Option<DataError>)
    ensures e == SetupError(d)
  {
    if d.setupTimes.None? {
      return None;
    }
    var s := d.setupTimes.value;
    if !SetupNonNegative(s) {
      return Some(NegativeSetupTimes);
    }
    if !HasShape(s, |d.resources|, |d.tasks|) {
      return Some(SetupTimesShape);
    }
    var idx := 0;
    while idx < |d.resources|
      invariant 0 <= idx <= |d.resources|
      invariant forall r :: 0 <= r < idx && AnyPositive(s[r]) ==> d.resources[r].Machine?
    {
      var isMachine := d.resources[idx].Machine?;
      var hasSetupTimes := AnyPositive(s[idx]);
      if !isMachine && hasSetupTimes {
        return Some(SetupTimesNotMachine);
      }
      idx := idx + 1;
    }
    return None;
  }

  /** `_validate_parameters`, check by check in the source's order. */
  method ValidateParameters(d: ProblemData) returns (r: Result<(), DataError>)
    ensures r == CheckParameters(d)
    ensures r.Ok? <==> WellFormed(d)
  {
    CheckParametersOk(d);
    var e := CheckJobs(d);
    if e.Some? { return Err(e.value); }
    e := CheckModes(d);
    if e.Some? { return Err(e.value); }
    FirstBadModeNone(d, 0);
    var without := TasksWithoutModes(d);
    if without != {} { return Err(MissingModes(without)); }
    e := CheckFeasibility(d);
    if e.Some? { return Err(e.value); }
    e := CheckSetupTimes(d);
    if e.Some? { return Err(e.value); }
    if d.horizon < 0 { return Err(NegativeHorizon); }
    if NeedsDueDates(d.objective) && exists j :: 0 <= j < |d.jobs| && d.jobs[j].dueDate.None? {
      return Err(MissingDueDates);
    }
    return Ok(());
  }

  // ---- construction and `replace`

  /** `ProblemData.__init__`: default constraints `{}` and objective makespan, then validation. */
  function NewProblemData(
    jobs: seq<Job>,
    resources: seq<Resource>,
    tasks: seq<Task>,
    modes: seq<Mode>,
    constraints: Option<map<(int, int), seq<Constraint>>> := None,
    setupTimes: Option<SetupTimes> := None,
    horizon: int := MAX_VALUE,
    objective: Option<Objective> := None): (r: Result<ProblemData, DataError>)
    ensures var d := ProblemData(jobs, resources, tasks, modes, constraints.GetOr(map[]), setupTimes, horizon,
                                 objective.GetOr(ObjectiveMakespan()));
            && (r.Ok? <==> WellFormed(d))
            && (r.Ok? ==> r.value == d)
            && (r.Err? ==> CheckParameters(d) == Err(r.error))
    ensures r.Ok? && objective.None? ==> OnlyComponent(r.value.objective, Makespan)
    ensures r.Ok? && constraints.None? ==> r.value.constraints == map[]
  {
    var d := ProblemData(jobs, resources, tasks, modes, constraints.GetOr(map[]), setupTimes, horizon,
                         objective.GetOr(ObjectiveMakespan()));
    CheckParametersOk(d);
    match CheckParameters(d)
    case Ok(_) => Ok(d)
    case Err(e) => Err(e)
  }

  /**
   * `ProblemData.replace`: every omitted argument is taken over from `d`
   * (note that an omitted setup-time array is `None` too, so it cannot be
   * cleared this way), and the result is validated again.
   */
  function Replace(
    d: ProblemData,
    jobs: Option<seq<Job>> := None,
    resources: Option<seq<Resource>> := None,
    tasks: Option<seq<Task>> := None,
    modes: Option<seq<Mode>> := None,
    constraints: Option<map<(int, int), seq<Constraint>>> := None,
    setupTimes: Option<SetupTimes> := None,
    horizon: Option<int> := None,
    objective: Option<Objective> := None): (r: Result<ProblemData, DataError>)
    ensures var merged := ProblemData(jobs.GetOr(d.jobs), resources.GetOr(d.resources), tasks.GetOr(d.tasks),
                                      modes.GetOr(d.modes), constraints.GetOr(d.constraints),
                                      if setupTimes.Some? then setupTimes else d.setupTimes,
                                      horizon.GetOr(d.horizon), objective.GetOr(d.objective));
            && (r.Ok? <==> WellFormed(merged))
            && (r.Err? ==> CheckParameters(merged) == Err(r.error))
    ensures r.Ok? ==> WellFormed(r.value)
    ensures r.Ok? ==> r.value.jobs == jobs.GetOr(d.jobs) && r.value.resources == resources.GetOr(d.resources)
                      && r.value.tasks == tasks.GetOr(d.tasks) && r.value.modes == modes.GetOr(d.modes)
                      && r.value.constraints == constraints.GetOr(d.constraints)
                      && r.value.setupTimes == (if setupTimes.Some? then setupTimes else d.setupTimes)
                      && r.value.horizon == horizon.GetOr(d.horizon)
                      && r.value.objective == objective.GetOr(d.objective)
  {
    NewProblemData(
      jobs.GetOr(d.jobs), resources.GetOr(d.resources), tasks.GetOr(d.tasks), modes.GetOr(d.modes),
      Some(constraints.GetOr(d.constraints)), if setupTimes.Some? then setupTimes else d.setupTimes,
      horizon.GetOr(d.horizon), Some(objective.GetOr(d.objective)))
  }

  /** Replacing nothing in well-formed data gives the same data back. */
  lemma {:induction false} ReplaceNothing(d: ProblemData)
    requires WellFormed(d)
    ensures Replace(d) == Ok(d)
  {
  }

  // ---- a consequence of validation about the counts

  lemma {:induction false} TaskImageBound(s: seq<Mode>)
    ensures |set i | 0 <= i < |s| :: s[i].task| <= |s|
  {
    if s != [] {
      var p := s[..|s| - 1];
      TaskImageBound(p);
      var img := set i | 0 <= i < |s| :: s[i].task;
      var imgP := set i | 0 <= i < |p| :: p[i].task;
      assert img <= imgP + {s[|s| - 1].task} by {
        forall x | x in img ensures x in imgP + {s[|s| - 1].task} {
          var i :| 0 <= i < |s| && s[i].task == x;
          if i < |p| { assert p[i].task == x; }
        }
      }
      SubsetCard(img, imgP + {s[|s| - 1].task});
    }
  }

  /** Since every task has a mode, well-formed data has at least as many modes as tasks. */
  lemma {:induction false} NumModesCoversTasks(d: ProblemData)
    requires WellFormed(d)
    ensures d.NumModes() >= d.NumTasks()
  {
    var range := Range(|d.tasks|);
    var img := set i | 0 <= i < |d.modes| :: d.modes[i].task;
    assert range <= img by {
      forall t | t in range ensures t in img {
        assert HasMode(d, t);
        var i :| 0 <= i < |d.modes| && d.modes[i].task == t;
      }
    }
    TaskImageBound(d.modes);
    SubsetCard(range, img);
  }

  /** A mode that demands a positive amount of a machine can never be scheduled: machines have capacity 0. */
  lemma {:induction false} MachineDemandInfeasible(d: ProblemData, m: Mode, k: nat)
    requires ModeResourcesKnown(d, m)
    requires k < |m.demands| && k < |m.resources| && d.resources[m.resources[k]].Machine? && m.demands[k] > 0
    ensures Infeasible(d, m)
  {
  }
}
