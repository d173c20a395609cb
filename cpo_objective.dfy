/**
 * The objective of the CP Optimizer back end
 * (`pyjobshop/solvers/cpoptimizer/Objective.py`): one expression per
 * objective component over the end times of the task and job interval
 * variables, their weighted sum over the components of positive weight, and
 * an `Objective` object that keeps at most one `minimize` record in the model
 * by removing the one it added before.
 */
module CpoObjective {
  import opened Wrappers
  import opened ProblemData
  import opened ObjectiveValues
  import opened CpoLog
  import CpLog

  /** `cpo.max` over no task variables has no value. */
  datatype ObjectiveError = EmptyMakespan

  /** `end_of(var)` for each variable, in order. */
  function EndExprs(xs: seq<IntervalVar>): (r: seq<CExpr>)
    ensures |r| == |xs|
  {
    seq(|xs|, k requires 0 <= k < |xs| => EndOf(xs[k].id))
  }

  /** The end each variable takes under `val`: its end when present, 0 when absent. */
  function Ends(xs: seq<IntervalVar>, val: Valuation): (r: seq<int>)
    ensures |r| == |xs|
  {
    seq(|xs|, k requires 0 <= k < |xs| => if Present(val, xs[k].id) then val(xs[k].id).end else 0)
  }

  /** `_makespan_expr`: the maximum end over all task variables. */
  function MakespanExpr(tasks: seq<IntervalVar>): (r: Result<CExpr, ObjectiveError>)
    ensures r.Err? <==> tasks == []
  {
    if tasks == [] then Err(EmptyMakespan) else Ok(MaxList(EndExprs(tasks)))
  }

  /** The makespan expression evaluates to the largest task end. */
  lemma MakespanMeaning(tasks: seq<IntervalVar>, val: Valuation)
    requires tasks != []
    ensures Eval(MakespanExpr(tasks).value, val) == MakespanValue(Ends(tasks, val))
  {
    assert Values(EndExprs(tasks), val) == Ends(tasks, val);
  }

  /** The per-job expression of component `c`, before weighting. */
  function JobCostExpr(c: JobComponent, job: Job, x: IntervalVar): CExpr
    requires NeedsDue(c) ==> job.dueDate.Some?
  {
    match c
    case Tardy => Greater(Minus(EndOf(x.id), CNum(job.dueDate.value)), CNum(0))
    case FlowTime => Max2(CNum(0), Minus(EndOf(x.id), CNum(job.releaseDate)))
    case Tardiness => Max2(CNum(0), Minus(EndOf(x.id), CNum(job.dueDate.value)))
    case Earliness => Max2(CNum(0), Minus(CNum(job.dueDate.value), EndOf(x.id)))
  }

  /** `job.weight * <cost>` for each of the first `n` jobs. */
  function JobTerms(c: JobComponent, jobs: seq<Job>, jobVars: seq<IntervalVar>, n: nat): (r: seq<CExpr>)
    requires n <= |jobs| && n <= |jobVars| && Usable(c, jobs)
    ensures |r| == n
  {
    seq(n, k requires 0 <= k < n => Scale(jobs[k].weight, JobCostExpr(c, jobs[k], jobVars[k])))
  }

  /** `_tardy_jobs_expr`, `_total_flow_time_expr`, `_total_tardiness_expr`, `_total_earliness_expr`. */
  function ComponentExpr(c: JobComponent, jobs: seq<Job>, jobVars: seq<IntervalVar>): CExpr
    requires |jobVars| == |jobs| && Usable(c, jobs)
  {
    Sum(JobTerms(c, jobs, jobVars, |jobs|))
  }

  /** One job's term evaluates to its weighted cost at the job's end. */
  lemma JobTermMeaning(c: JobComponent, job: Job, x: IntervalVar, val: Valuation)
    requires NeedsDue(c) ==> job.dueDate.Some?
    ensures Eval(Scale(job.weight, JobCostExpr(c, job, x)), val)
            == job.weight * JobCost(c, job, if Present(val, x.id) then val(x.id).end else 0)
  {
    var end := if Present(val, x.id) then val(x.id).end else 0;
    assert Eval(EndOf(x.id), val) == end;
    var cost := JobCostExpr(c, job, x);
    assert Eval(cost, val) == JobCost(c, job, end) by {
      match c
      case Tardy =>
        assert Eval(Minus(EndOf(x.id), CNum(job.dueDate.value)), val) == end - job.dueDate.value;
      case FlowTime =>
        assert Eval(Minus(EndOf(x.id), CNum(job.releaseDate)), val) == end - job.releaseDate;
      case Tardiness =>
        assert Eval(Minus(EndOf(x.id), CNum(job.dueDate.value)), val) == end - job.dueDate.value;
      case Earliness =>
        assert Eval(Minus(CNum(job.dueDate.value), EndOf(x.id)), val) == job.dueDate.value - end;
    }
    assert Eval(Scale(job.weight, cost), val) == job.weight * Eval(cost, val);
  }

  lemma {:induction false} JobTermsMeaning(c: JobComponent, jobs: seq<Job>, jobVars: seq<IntervalVar>, n: nat, val: Valuation)
    requires n <= |jobs| && n <= |jobVars| && Usable(c, jobs)
    ensures Total(JobTerms(c, jobs, jobVars, n), val) == ComponentValue(c, jobs, Ends(jobVars, val), n)
  {
    if n > 0 {
      assert JobTerms(c, jobs, jobVars, n)[..n - 1] == JobTerms(c, jobs, jobVars, n - 1);
      JobTermsMeaning(c, jobs, jobVars, n - 1, val);
      JobTermMeaning(c, jobs[n - 1], jobVars[n - 1], val);
    }
  }

  /** Each component expression evaluates to the component's value at the job ends. */
  lemma ComponentMeaning(c: JobComponent, jobs: seq<Job>, jobVars: seq<IntervalVar>, val: Valuation)
    requires |jobVars| == |jobs| && Usable(c, jobs)
    ensures Eval(ComponentExpr(c, jobs, jobVars), val) == ComponentValue(c, jobs, Ends(jobVars, val), |jobs|)
  {
    JobTermsMeaning(c, jobs, jobVars, |jobs|, val);
  }

  /** `expr += weight * component` when the weight is positive. */
  function WithTerm(e: CExpr, w: int, term: CExpr): CExpr
  {
    if w > 0 then Add(e, Scale(w, term)) else e
  }

  /**
   * `_objective_expr`'s sum: starting from 0, the makespan, tardy jobs, total
   * tardiness, total flow time and total earliness terms of positive weight,
   * in that order.
   */
  function ObjectiveExpr(o: Objective, jobs: seq<Job>, jobVars: seq<IntervalVar>, tasks: seq<IntervalVar>)
    : (r: Result<CExpr, ObjectiveError>)
    requires |jobVars| == |jobs| && (NeedsDueDates(o) ==> DueDatesSet(jobs))
    ensures r.Err? <==> o.weightMakespan > 0 && tasks == []
  {
    var e0 := CNum(0);
    if o.weightMakespan > 0 && tasks == [] then Err(EmptyMakespan)
    else
      var e1 := if o.weightMakespan > 0 then WithTerm(e0, o.weightMakespan, MakespanExpr(tasks).value) else e0;
      var e2 := WithTerm(e1, o.weightTardyJobs, if o.weightTardyJobs > 0 then ComponentExpr(Tardy, jobs, jobVars) else CNum(0));
      var e3 := WithTerm(e2, o.weightTotalTardiness,
                         if o.weightTotalTardiness > 0 then ComponentExpr(Tardiness, jobs, jobVars) else CNum(0));
      var e4 := WithTerm(e3, o.weightTotalFlowTime, ComponentExpr(FlowTime, jobs, jobVars));
      Ok(WithTerm(e4, o.weightTotalEarliness,
                  if o.weightTotalEarliness > 0 then ComponentExpr(Earliness, jobs, jobVars) else CNum(0)))
  }

  lemma WithTermMeaning(e: CExpr, w: int, term: CExpr, val: Valuation)
    ensures Eval(WithTerm(e, w, term), val) == Eval(e, val) + Term(w, Eval(term, val))
  {
  }

  /**
   * Objective consistency: the minimised expression evaluates to the
   * objective value of the task and job ends, whatever they are.
   */
  lemma ObjectiveMeaning(o: Objective, jobs: seq<Job>, jobVars: seq<IntervalVar>, tasks: seq<IntervalVar>, val: Valuation)
    requires |jobVars| == |jobs| && (NeedsDueDates(o) ==> DueDatesSet(jobs))
    requires ObjectiveExpr(o, jobs, jobVars, tasks).Ok?
    ensures Eval(ObjectiveExpr(o, jobs, jobVars, tasks).value, val) == ObjectiveValue(o, jobs, Ends(tasks, val), Ends(jobVars, val))
  {
    var ends, jobEnds := Ends(tasks, val), Ends(jobVars, val);
    var e0 := CNum(0);
    var e1 := if o.weightMakespan > 0 then WithTerm(e0, o.weightMakespan, MakespanExpr(tasks).value) else e0;
    assert Eval(e1, val) == Term(o.weightMakespan, MakespanValue(ends)) by {
      if o.weightMakespan > 0 {
        MakespanMeaning(tasks, val);
        WithTermMeaning(e0, o.weightMakespan, MakespanExpr(tasks).value, val);
      }
    }
    var t2 := if o.weightTardyJobs > 0 then ComponentExpr(Tardy, jobs, jobVars) else CNum(0);
    var e2 := WithTerm(e1, o.weightTardyJobs, t2);
    assert Eval(e2, val) == Eval(e1, val)
      + (if o.weightTardyJobs > 0 then o.weightTardyJobs * ComponentValue(Tardy, jobs, jobEnds, |jobs|) else 0) by {
      WithTermMeaning(e1, o.weightTardyJobs, t2, val);
      if o.weightTardyJobs > 0 {
        ComponentMeaning(Tardy, jobs, jobVars, val);
      }
    }
    var t3 := if o.weightTotalTardiness > 0 then ComponentExpr(Tardiness, jobs, jobVars) else CNum(0);
    var e3 := WithTerm(e2, o.weightTotalTardiness, t3);
    assert Eval(e3, val) == Eval(e2, val)
      + (if o.weightTotalTardiness > 0 then o.weightTotalTardiness * ComponentValue(Tardiness, jobs, jobEnds, |jobs|) else 0) by {
      WithTermMeaning(e2, o.weightTotalTardiness, t3, val);
      if o.weightTotalTardiness > 0 {
        ComponentMeaning(Tardiness, jobs, jobVars, val);
      }
    }
    var e4 := WithTerm(e3, o.weightTotalFlowTime, ComponentExpr(FlowTime, jobs, jobVars));
    assert Eval(e4, val) == Eval(e3, val) + Term(o.weightTotalFlowTime, ComponentValue(FlowTime, jobs, jobEnds, |jobs|)) by {
      WithTermMeaning(e3, o.weightTotalFlowTime, ComponentExpr(FlowTime, jobs, jobVars), val);
      ComponentMeaning(FlowTime, jobs, jobVars, val);
    }
    var t5 := if o.weightTotalEarliness > 0 then ComponentExpr(Earliness, jobs, jobVars) else CNum(0);
    var e5 := WithTerm(e4, o.weightTotalEarliness, t5);
    assert Eval(e5, val) == Eval(e4, val)
      + (if o.weightTotalEarliness > 0 then o.weightTotalEarliness * ComponentValue(Earliness, jobs, jobEnds, |jobs|) else 0) by {
      WithTermMeaning(e4, o.weightTotalEarliness, t5, val);
      if o.weightTotalEarliness > 0 {
        ComponentMeaning(Earliness, jobs, jobVars, val);
      }
    }
    assert ObjectiveExpr(o, jobs, jobVars, tasks).value == e5;
  }

  /** With no positive weight the minimised expression is the constant 0. */
  lemma ZeroWeightsObjective(o: Objective, jobs: seq<Job>, jobVars: seq<IntervalVar>, tasks: seq<IntervalVar>)
    requires |jobVars| == |jobs|
    requires o.weightMakespan <= 0 && o.weightTardyJobs <= 0 && o.weightTotalFlowTime <= 0
    requires o.weightTotalTardiness <= 0 && o.weightTotalEarliness <= 0
    ensures ObjectiveExpr(o, jobs, jobVars, tasks) == Ok(CNum(0))
  {
  }

  // ------------------------------------------------------------ minimize records

  /** The number of `minimize` records in a log. */
  function MinimizeCount(log: seq<Record>): nat
  {
    if log == [] then 0 else MinimizeCount(log[..|log| - 1]) + (if log[|log| - 1].Minimize? then 1 else 0)
  }

  lemma {:induction false} MinimizeCountAppend(a: seq<Record>, b: seq<Record>)
    ensures MinimizeCount(a + b) == MinimizeCount(a) + MinimizeCount(b)
  {
    if b == [] {
      assert a + b == a;
    } else {
      assert (a + b)[..|a + b| - 1] == a + b[..|b| - 1];
      MinimizeCountAppend(a, b[..|b| - 1]);
    }
  }

  /** Removing a `minimize` record that is in the log takes one off the count; removing anything else keeps it. */
  lemma MinimizeCountRemove(log: seq<Record>, r: Record)
    ensures MinimizeCount(RemoveFirst(log, r)) == MinimizeCount(log) - (if r in log && r.Minimize? then 1 else 0)
  {
    if r in log {
      var i := FirstIndex(log, r);
      assert log == log[..i] + [r] + log[i + 1..];
      MinimizeCountAppend(log[..i] + [r], log[i + 1..]);
      MinimizeCountAppend(log[..i], [r]);
      MinimizeCountAppend(log[..i], log[i + 1..]);
      assert MinimizeCount([r]) == if r.Minimize? then 1 else 0 by {
        assert [r][..0] == [];
      }
    }
  }

  /** A log without `minimize` records has none in an element. */
  lemma {:induction false} NoMinimizeMember(log: seq<Record>, r: Record)
    requires MinimizeCount(log) == 0 && r in log
    ensures !r.Minimize?
  {
    if log[|log| - 1] != r {
      NoMinimizeMember(log[..|log| - 1], r);
    }
  }

  /** `Objective`: the model, the jobs with their variables and the task variables. */
  class ObjectiveBuilder {
    const model: Model
    const jobs: seq<Job>
    const jobVars: seq<IntervalVar>
    const taskVars: seq<IntervalVar>
    /** `_current_objective_expr`. */
    var current: Option<Record>

    constructor (model: Model, jobs: seq<Job>, jobVars: seq<IntervalVar>, taskVars: seq<IntervalVar>)
      ensures this.model == model && this.jobs == jobs && this.jobVars == jobVars && this.taskVars == taskVars
      ensures current == None
    {
      this.model := model;
      this.jobs := jobs;
      this.jobVars := jobVars;
      this.taskVars := taskVars;
      current := None;
    }

    /**
     * The model holds at most one `minimize` record, and when it holds one,
     * that is the record this object added last.
     */
    predicate Tracked()
      reads this, model
    {
      && MinimizeCount(model.log) <= 1
      && (MinimizeCount(model.log) == 1 ==> current.Some? && current.value.Minimize? && current.value in model.log)
    }

    /**
     * `build`: remove the recorded objective (when there is one), then add
     * and record `minimize` of the new expression. When the expression
     * cannot be built the removal has already happened and the record is kept.
     */
    method Build(o: Objective) returns (r: Result<(), ObjectiveError>)
      requires |jobVars| == |jobs| && (NeedsDueDates(o) ==> DueDatesSet(jobs))
      requires Tracked()
      modifies this, model
      ensures Tracked()
      ensures var removed := if old(current).Some? then RemoveFirst(old(model.log), old(current).value) else old(model.log);
              match ObjectiveExpr(o, jobs, jobVars, taskVars)
              case Ok(e) => r.Ok? && model.log == removed + [Minimize(e)] && current == Some(Minimize(e))
              case Err(err) => r == Err(err) && model.log == removed && current == old(current)
      ensures model.next == old(model.next) && model.startingPoint == old(model.startingPoint)
    {
      ghost var log0 := model.log;
      if current.Some? {
        model.Remove(current.value);
        MinimizeCountRemove(log0, current.value);
      }
      var expr := ObjectiveExpr(o, jobs, jobVars, taskVars);
      if expr.Err? {
        return Err(expr.error);
      }
      var objective := Minimize(expr.value);
      ghost var log1 := model.log;
      assert MinimizeCount(log1) == 0;
      model.Add(objective);
      MinimizeCountAppend(log1, [objective]);
      assert MinimizeCount([objective]) == 1 by {
        assert [objective][..0] == [];
      }
      current := Some(objective);
      r := Ok(());
    }
  }
}
