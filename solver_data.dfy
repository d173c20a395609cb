/**
 * The problem data as the solver back ends read it. The back ends use a newer
 * data interface than `pyjobshop/ProblemData.py` (optional tasks, idle
 * permission, machines with a no-idle flag, non-renewable resources, the
 * `task2modes` / `resource2modes` lookups and `TaskData` solutions), so they
 * get this record of their own rather than the validated one.
 */
module SolverData {
  import opened ProblemData
  import opened SolverUtils

  datatype SolverTask = SolverTask(
    earliestStart: int,
    latestStart: int,
    earliestEnd: int,
    latestEnd: int,
    fixedDuration: bool,
    optional: bool,
    allowIdle: bool)

  datatype SolverResource =
    | MachineRes(noIdle: bool)
    | RenewableRes(capacity: int)
    | NonRenewableRes(capacity: int)
  {
    function Capacity(): int
    {
      if MachineRes? then 0 else capacity
    }
  }

  datatype SolverData = SolverData(
    jobs: seq<Job>,
    resources: seq<SolverResource>,
    tasks: seq<SolverTask>,
    modes: seq<Mode>,
    horizon: int)
  {
    function NumTasks(): nat { |tasks| }
    function NumModes(): nat { |modes| }
  }

  /**
   * Every index in the data points at something: what `ProblemData`
   * validation establishes before a solver sees the data.
   */
  predicate Indexed(d: SolverData)
  {
    && (forall j, k :: 0 <= j < |d.jobs| && 0 <= k < |d.jobs[j].tasks| ==> 0 <= d.jobs[j].tasks[k] < |d.tasks|)
    && (forall m :: 0 <= m < |d.modes| ==> 0 <= d.modes[m].task < |d.tasks|)
    && (forall m, k :: 0 <= m < |d.modes| && 0 <= k < |d.modes[m].resources| ==>
          0 <= d.modes[m].resources[k] < |d.resources|)
    && (forall m :: 0 <= m < |d.modes| ==> |d.modes[m].demands| == |d.modes[m].resources|)
  }

  /** `task2modes(t)`: the modes of task `t`, in index order. */
  function Task2Modes(d: SolverData, t: int): (r: seq<nat>)
    ensures forall k :: 0 <= k < |r| ==> r[k] < |d.modes| && d.modes[r[k]].task == t
    ensures forall m {:trigger m in r} :: 0 <= m < |d.modes| && d.modes[m].task == t ==> m in r
    ensures Increasing(r)
  {
    ModesOf(d.modes, t)
  }

  function AllModes(n: nat): (r: seq<nat>)
    ensures |r| == n && forall k :: 0 <= k < n ==> r[k] == k
    ensures forall x: int :: x in r <==> 0 <= x < n
    ensures Increasing(r)
  {
    var r := seq(n, k => k);
    forall x: int | 0 <= x < n
      ensures x in r
    {
      assert r[x] == x;
    }
    r
  }

  /** `resource2modes(r)`: the modes that use resource `r`, in index order. */
  function Resource2Modes(d: SolverData, r: int): (s: seq<nat>)
    ensures forall k :: 0 <= k < |s| ==> s[k] < |d.modes| && r in d.modes[s[k]].resources
    ensures forall m :: 0 <= m < |d.modes| && r in d.modes[m].resources ==> m in s
    ensures Increasing(s)
  {
    var all := AllModes(|d.modes|);
    var s := Select(all, (m: nat) => m < |d.modes| && r in d.modes[m].resources);
    forall k | 0 <= k < |s|
      ensures s[k] < |d.modes| && r in d.modes[s[k]].resources
    {
      assert s[k] in s;
    }
    forall m | 0 <= m < |d.modes| && r in d.modes[m].resources
      ensures m in s
    {
      assert all[m] in all;
    }
    s
  }

  predicate IsMachine(d: SolverData, r: int)
  {
    0 <= r < |d.resources| && d.resources[r].MachineRes?
  }

  predicate IsRenewable(d: SolverData, r: int)
  {
    0 <= r < |d.resources| && d.resources[r].RenewableRes?
  }

  predicate IsNonRenewable(d: SolverData, r: int)
  {
    0 <= r < |d.resources| && d.resources[r].NonRenewableRes?
  }

  /** Every listed index is a machine. */
  predicate AllMachines(d: SolverData, machines: seq<nat>)
  {
    forall k :: 0 <= k < |machines| ==> IsMachine(d, machines[k])
  }

  /** `machine_idcs`: the indices of the machines, in index order. */
  function MachineIdcs(d: SolverData): (s: seq<nat>)
    ensures forall r :: r in s <==> IsMachine(d, r)
    ensures AllMachines(d, s)
    ensures forall k :: 0 <= k < |s| ==> s[k] < |d.resources|
    ensures Increasing(s)
  {
    var s := Select(AllModes(|d.resources|), (r: nat) => IsMachine(d, r));
    assert forall k :: 0 <= k < |s| ==> s[k] in s;
    s
  }

  /** `renewable_idcs`: the indices of the renewable resources, in index order. */
  function RenewableIdcs(d: SolverData): (s: seq<nat>)
    ensures forall r :: r in s <==> IsRenewable(d, r)
    ensures forall k :: 0 <= k < |s| ==> s[k] < |d.resources|
    ensures Increasing(s)
  {
    var s := Select(AllModes(|d.resources|), (r: nat) => IsRenewable(d, r));
    assert forall k :: 0 <= k < |s| ==> s[k] in s;
    s
  }

  /** `non_renewable_idcs`: the indices of the non-renewable resources, in index order. */
  function NonRenewableIdcs(d: SolverData): (s: seq<nat>)
    ensures forall r :: r in s <==> IsNonRenewable(d, r)
    ensures forall k :: 0 <= k < |s| ==> s[k] < |d.resources|
    ensures Increasing(s)
  {
    var s := Select(AllModes(|d.resources|), (r: nat) => IsNonRenewable(d, r));
    assert forall k :: 0 <= k < |s| ==> s[k] in s;
    s
  }

  /** A scheduled task of a solution, as the solvers decode it. */
  datatype TaskData = TaskData(
    mode: int,
    resources: seq<int>,
    start: int,
    end: int,
    idle: int,
    breaks: int,
    present: bool)

  /** The placeholder of a task that is not scheduled. */
  function AbsentTask(d: SolverData): TaskData
  {
    TaskData(d.NumModes(), [], 0, 0, 0, 0, false)
  }

  /** The outcome of a solver run. */
  datatype SolveStatus = Optimal | Feasible | Infeasible | TimeLimit | Unknown
}
