/**
 * The objective value of a schedule, computed directly from task and job end
 * times: the reference both back ends' objective expressions are proved
 * against (`pyjobshop/solvers/ortools/Objective.py`,
 * `pyjobshop/solvers/cpoptimizer/Objective.py`). Each component of positive
 * weight contributes its weight times the component's value.
 */
module ObjectiveValues {
  import opened ProblemData
  import CpLog

  /** The four per-job components of the objective. */
  datatype JobComponent = Tardy | FlowTime | Tardiness | Earliness

  /** The components whose construction reads the jobs' due dates. */
  predicate NeedsDue(c: JobComponent)
  {
    c != FlowTime
  }

  predicate DueDatesSet(jobs: seq<Job>)
  {
    forall k :: 0 <= k < |jobs| ==> jobs[k].dueDate.Some?
  }

  /** What `assert job.due_date is not None` demands of component `c`. */
  predicate Usable(c: JobComponent, jobs: seq<Job>)
  {
    NeedsDue(c) ==> DueDatesSet(jobs)
  }

  function MaxInt(a: int, b: int): int
  {
    if a >= b then a else b
  }

  /** The cost of one job with end time `end` under component `c`, before weighting. */
  function JobCost(c: JobComponent, job: Job, end: int): int
    requires NeedsDue(c) ==> job.dueDate.Some?
  {
    match c
    case Tardy => if end > job.dueDate.value then 1 else 0
    case FlowTime => MaxInt(0, end - job.releaseDate)
    case Tardiness => MaxInt(0, end - job.dueDate.value)
    case Earliness => MaxInt(0, job.dueDate.value - end)
  }

  /** The weighted cost of the first `n` jobs under component `c`. */
  function ComponentValue(c: JobComponent, jobs: seq<Job>, ends: seq<int>, n: nat): int
    requires n <= |jobs| && n <= |ends| && Usable(c, jobs)
  {
    if n == 0 then 0
    else ComponentValue(c, jobs, ends, n - 1) + jobs[n - 1].weight * JobCost(c, jobs[n - 1], ends[n - 1])
  }

  /** The makespan: the largest task end, 0 without tasks. */
  function MakespanValue(ends: seq<int>): int
  {
    if ends == [] then 0 else CpLog.Max(ends)
  }

  function Term(w: int, x: int): int
  {
    if w > 0 then w * x else 0
  }

  /**
   * The objective value of a schedule with the given task and job end
   * times: every component of positive weight, times its weight.
   */
  function ObjectiveValue(o: Objective, jobs: seq<Job>, taskEnds: seq<int>, jobEnds: seq<int>): int
    requires |jobEnds| == |jobs| && (NeedsDueDates(o) ==> DueDatesSet(jobs))
  {
    Term(o.weightMakespan, MakespanValue(taskEnds))
    + (if o.weightTardyJobs > 0 then o.weightTardyJobs * ComponentValue(Tardy, jobs, jobEnds, |jobs|) else 0)
    + (if o.weightTotalTardiness > 0 then o.weightTotalTardiness * ComponentValue(Tardiness, jobs, jobEnds, |jobs|) else 0)
    + Term(o.weightTotalFlowTime, ComponentValue(FlowTime, jobs, jobEnds, |jobs|))
    + (if o.weightTotalEarliness > 0 then o.weightTotalEarliness * ComponentValue(Earliness, jobs, jobEnds, |jobs|) else 0)
  }
}
