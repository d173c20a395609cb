/**
 * The objective of the OR-Tools back end (`pyjobshop/solvers/ortools/Objective.py`).
 * Each component method creates auxiliary variables and the constraints
 * that define them and returns an expression over them; `_objective_expr`
 * adds `weight * component` for every component of positive weight, and
 * `set_objective` replaces the model's objective by the result.
 *
 * The records of each part are given by a function of the inputs and of the
 * first free variable number; the lemmas state what a valuation satisfying
 * them makes the expression evaluate to: the weighted sum of the components,
 * each computed directly from the end times.
 */
module OrObjective {
  import opened Wrappers
  import opened ProblemData
  import opened SolverData
  import opened CpLog
  import opened OrVariables
  import opened ObjectiveValues

  /** The values that a valuation gives the listed variables. */
  function EndValues(vs: seq<Var>, val: Valuation): (r: seq<int>)
    ensures |r| == |vs| && forall k :: 0 <= k < |vs| ==> r[k] == val(vs[k])
  {
    seq(|vs|, k requires 0 <= k < |vs| => val(vs[k]))
  }

  // ----------------------------------------------------------------- makespan

  function EndExprs(ends: seq<Var>): (r: seq<Expr>)
    ensures |r| == |ends| && forall k :: 0 <= k < |ends| ==> r[k] == Value(ends[k])
  {
    seq(|ends|, k requires 0 <= k < |ends| => Value(ends[k]))
  }

  /** `new_int_var(0, horizon)` as `v`, then `add_max_equality(v, task ends)`. */
  function MakespanRecords(taskEnds: seq<Var>, horizon: int, v: Var): seq<Record>
  {
    [IntVar(v, 0, horizon), MaxEquality(Value(v), EndExprs(taskEnds))]
  }

  /** `_makespan_expr`. */
  method MakespanExpr(m: Model, taskEnds: seq<Var>, horizon: int) returns (e: Expr)
    modifies m
    ensures m.log == old(m.log) + MakespanRecords(taskEnds, horizon, old(m.next))
    ensures m.next == old(m.next) + 1 && e == Value(old(m.next))
    ensures m.hints == old(m.hints) && m.objective == old(m.objective)
  {
    var makespan := m.NewIntVar(0, horizon);
    var completionTimes: seq<Expr> := [];
    var k := 0;
    while k < |taskEnds|
      invariant k <= |taskEnds| && completionTimes == EndExprs(taskEnds[..k])
    {
      completionTimes := completionTimes + [Value(taskEnds[k])];
      k := k + 1;
      assert taskEnds[..k] == taskEnds[..k - 1] + [taskEnds[k - 1]];
    }
    assert taskEnds[..k] == taskEnds;
    m.Add(MaxEquality(Value(makespan), completionTimes));
    e := Value(makespan);
  }

  /** The makespan variable is the largest task end, within [0, horizon]. */
  lemma {:induction false} MakespanMeaning(taskEnds: seq<Var>, horizon: int, v: Var, val: Valuation)
    requires Satisfies(MakespanRecords(taskEnds, horizon, v), val)
    ensures val(v) == MakespanValue(EndValues(taskEnds, val))
    ensures 0 <= val(v) <= horizon
  {
    var recs := MakespanRecords(taskEnds, horizon, v);
    assert Holds(recs[0], val) && Holds(recs[1], val);
    assert Values(EndExprs(taskEnds), val) == EndValues(taskEnds, val);
  }

  // ------------------------------------------------------- per-job components

  /**
   * The records one job adds for component `c`, with auxiliary variable `v`:
   * `is_tardy` with `end > due` under it and `end <= due` under its negation,
   * or a variable in [0, horizon] equal to the maximum of 0 and the
   * job's flow time, tardiness or earliness.
   */
  function JobBlock(c: JobComponent, job: Job, end: Var, horizon: int, v: Var): seq<Record>
    requires NeedsDue(c) ==> job.dueDate.Some?
  {
    match c
    case Tardy =>
      [ BoolVar(v),
        Linear([Pos(v)], Num(job.dueDate.value), Lt, Value(end)),
        Linear([Neg(v)], Value(end), Le, Num(job.dueDate.value)) ]
    case FlowTime =>
      [IntVar(v, 0, horizon), MaxEquality(Value(v), [Num(0), Minus(Value(end), Num(job.releaseDate))])]
    case Tardiness =>
      [IntVar(v, 0, horizon), MaxEquality(Value(v), [Num(0), Minus(Value(end), Num(job.dueDate.value))])]
    case Earliness =>
      [IntVar(v, 0, horizon), MaxEquality(Value(v), [Num(0), Minus(Num(job.dueDate.value), Value(end))])]
  }

  /** The records of the first `n` jobs; job `k` gets variable `base + k`. */
  function ComponentRecords(c: JobComponent, jobs: seq<Job>, ends: seq<Var>, horizon: int, base: Var, n: nat): seq<Record>
    requires n <= |jobs| && n <= |ends| && Usable(c, jobs)
  {
    if n == 0 then []
    else ComponentRecords(c, jobs, ends, horizon, base, n - 1) + JobBlock(c, jobs[n - 1], ends[n - 1], horizon, base + (n - 1))
  }

  function AuxVars(base: Var, n: nat): (r: seq<Expr>)
    ensures |r| == n && forall k :: 0 <= k < n ==> r[k] == Value(base + k)
  {
    seq(n, k requires 0 <= k < n => Value(base + k))
  }

  function Weights(jobs: seq<Job>): (r: seq<int>)
    ensures |r| == |jobs| && forall k :: 0 <= k < |jobs| ==> r[k] == jobs[k].weight
  {
    seq(|jobs|, k requires 0 <= k < |jobs| => jobs[k].weight)
  }

  /** `LinearExpr.weighted_sum(aux_vars, [job.weight for job in jobs])`. */
  function ComponentExpr(jobs: seq<Job>, base: Var): Expr
  {
    WeightedSum(AuxVars(base, |jobs|), Weights(jobs))
  }

  /** The records of one job, with the auxiliary variable taken next. */
  method AddJobBlock(m: Model, c: JobComponent, job: Job, end: Var, horizon: int) returns (v: Var)
    requires NeedsDue(c) ==> job.dueDate.Some?
    modifies m
    ensures v == old(m.next) && m.next == v + 1
    ensures m.log == old(m.log) + JobBlock(c, job, end, horizon, v)
    ensures m.hints == old(m.hints) && m.objective == old(m.objective)
  {
    match c
    case Tardy =>
      v := m.NewBoolVar();
      m.Add(Linear([Pos(v)], Num(job.dueDate.value), Lt, Value(end)));
      m.Add(Linear([Neg(v)], Value(end), Le, Num(job.dueDate.value)));
    case FlowTime =>
      v := m.NewIntVar(0, horizon);
      m.Add(MaxEquality(Value(v), [Num(0), Minus(Value(end), Num(job.releaseDate))]));
    case Tardiness =>
      v := m.NewIntVar(0, horizon);
      m.Add(MaxEquality(Value(v), [Num(0), Minus(Value(end), Num(job.dueDate.value))]));
    case Earliness =>
      v := m.NewIntVar(0, horizon);
      m.Add(MaxEquality(Value(v), [Num(0), Minus(Num(job.dueDate.value), Value(end))]));
  }

  /**
   * `_tardy_jobs_expr`, `_total_flow_time_expr`, `_total_tardiness_expr` and
   * `_total_earliness_expr`: one auxiliary variable per job, in job order,
   * and their weighted sum.
   */
  method JobComponentExpr(m: Model, c: JobComponent, jobs: seq<Job>, ends: seq<Var>, horizon: int) returns (e: Expr)
    requires |ends| == |jobs| && Usable(c, jobs)
    modifies m
    ensures m.log == old(m.log) + ComponentRecords(c, jobs, ends, horizon, old(m.next), |jobs|)
    ensures m.next == old(m.next) + |jobs| && e == ComponentExpr(jobs, old(m.next))
    ensures m.hints == old(m.hints) && m.objective == old(m.objective)
  {
    ghost var log0 := m.log;
    var base := m.next;
    var auxVars: seq<Expr> := [];
    var k := 0;
    while k < |jobs|
      invariant k <= |jobs| && m.next == base + k && auxVars == AuxVars(base, k)
      invariant m.log == log0 + ComponentRecords(c, jobs, ends, horizon, base, k)
      invariant m.hints == old(m.hints) && m.objective == old(m.objective)
    {
      var v := AddJobBlock(m, c, jobs[k], ends[k], horizon);
      AppendAssoc(log0, ComponentRecords(c, jobs, ends, horizon, base, k), JobBlock(c, jobs[k], ends[k], horizon, v));
      auxVars := auxVars + [Value(v)];
      k := k + 1;
    }
    var weights := Weights(jobs);
    e := WeightedSum(auxVars, weights);
  }

  /** A job's auxiliary variable is its unweighted cost. */
  lemma {:induction false} JobBlockMeaning(c: JobComponent, job: Job, end: Var, horizon: int, v: Var, val: Valuation)
    requires NeedsDue(c) ==> job.dueDate.Some?
    requires Satisfies(JobBlock(c, job, end, horizon, v), val)
    ensures val(v) == JobCost(c, job, val(end))
  {
    var recs := JobBlock(c, job, end, horizon, v);
    assert Holds(recs[0], val) && Holds(recs[1], val);
    match c
    case Tardy =>
      assert Holds(recs[2], val);
    case FlowTime =>
      MaxZeroHolds(v, Minus(Value(end), Num(job.releaseDate)), val);
    case Tardiness =>
      MaxZeroHolds(v, Minus(Value(end), Num(job.dueDate.value)), val);
    case Earliness =>
      MaxZeroHolds(v, Minus(Num(job.dueDate.value), Value(end)), val);
  }

  /** A satisfied `v == max(0, e)` gives `v` the larger of zero and `e`'s value. */
  lemma MaxZeroHolds(v: Var, e: Expr, val: Valuation)
    requires Holds(MaxEquality(Value(v), [Num(0), e]), val)
    ensures val(v) == MaxInt(0, Eval(e, val))
  {
    assert Values([Num(0), e], val) == [0, Eval(e, val)];
  }

  /** The records of `n` jobs hold those of the first `n - 1` and fix the last job's variable. */
  lemma {:induction false} ComponentRecordsLast(c: JobComponent, jobs: seq<Job>, ends: seq<Var>, horizon: int, base: Var, n: nat, val: Valuation)
    requires 0 < n <= |jobs| && n <= |ends| && Usable(c, jobs)
    requires Satisfies(ComponentRecords(c, jobs, ends, horizon, base, n), val)
    ensures Satisfies(ComponentRecords(c, jobs, ends, horizon, base, n - 1), val)
    ensures val(base + (n - 1)) == JobCost(c, jobs[n - 1], val(ends[n - 1]))
  {
    var init := ComponentRecords(c, jobs, ends, horizon, base, n - 1);
    var block := JobBlock(c, jobs[n - 1], ends[n - 1], horizon, base + (n - 1));
    SatisfiesLeft(init, block, val);
    SatisfiesRight(init, block, val);
    JobBlockMeaning(c, jobs[n - 1], ends[n - 1], horizon, base + (n - 1), val);
  }

  /** The weighted sum of the first `n` auxiliary variables is the weighted cost of the first `n` jobs. */
  lemma {:induction false} ComponentRecordsMeaning(c: JobComponent, jobs: seq<Job>, ends: seq<Var>, horizon: int, base: Var, n: nat, val: Valuation)
    requires n <= |jobs| && n <= |ends| && Usable(c, jobs)
    requires Satisfies(ComponentRecords(c, jobs, ends, horizon, base, n), val)
    ensures WeightedTotal(AuxVars(base, n), Weights(jobs)[..n], val) == ComponentValue(c, jobs, EndValues(ends, val), n)
  {
    if n > 0 {
      ComponentRecordsLast(c, jobs, ends, horizon, base, n, val);
      ComponentRecordsMeaning(c, jobs, ends, horizon, base, n - 1, val);
      AuxTotalStep(jobs, base, n, val);
      assert EndValues(ends, val)[n - 1] == val(ends[n - 1]);
    }
  }

  /** The weighted total of the first `n` auxiliary variables adds the last one's to that of the first `n - 1`. */
  lemma AuxTotalStep(jobs: seq<Job>, base: Var, n: nat, val: Valuation)
    requires 0 < n <= |jobs|
    ensures WeightedTotal(AuxVars(base, n), Weights(jobs)[..n], val)
            == WeightedTotal(AuxVars(base, n - 1), Weights(jobs)[..n - 1], val) + jobs[n - 1].weight * val(base + (n - 1))
  {
    var es, ws := AuxVars(base, n), Weights(jobs)[..n];
    assert es[..n - 1] == AuxVars(base, n - 1);
    assert ws[..n - 1] == Weights(jobs)[..n - 1];
  }

  /** A valuation satisfying a component's records makes its expression the component's value. */
  lemma {:induction false} ComponentMeaning(c: JobComponent, jobs: seq<Job>, ends: seq<Var>, horizon: int, base: Var, val: Valuation)
    requires |ends| == |jobs| && Usable(c, jobs)
    requires Satisfies(ComponentRecords(c, jobs, ends, horizon, base, |jobs|), val)
    ensures Eval(ComponentExpr(jobs, base), val) == ComponentValue(c, jobs, EndValues(ends, val), |jobs|)
  {
    ComponentRecordsMeaning(c, jobs, ends, horizon, base, |jobs|, val);
    assert Weights(jobs)[..|jobs|] == Weights(jobs);
  }

  /** The flow-time, tardiness and earliness variables lie in [0, horizon]; `is_tardy` is 0 or 1. */
  lemma {:induction false} AuxBounds(c: JobComponent, jobs: seq<Job>, ends: seq<Var>, horizon: int, base: Var, n: nat, k: nat, val: Valuation)
    requires n <= |jobs| && n <= |ends| && Usable(c, jobs) && k < n
    requires Satisfies(ComponentRecords(c, jobs, ends, horizon, base, n), val)
    ensures if c == Tardy then 0 <= val(base + k) <= 1 else 0 <= val(base + k) <= horizon
  {
    var init := ComponentRecords(c, jobs, ends, horizon, base, n - 1);
    var block := JobBlock(c, jobs[n - 1], ends[n - 1], horizon, base + (n - 1));
    if k < n - 1 {
      SatisfiesLeft(init, block, val);
      AuxBounds(c, jobs, ends, horizon, base, n - 1, k, val);
    } else {
      SatisfiesRight(init, block, val);
      assert Holds(block[0], val);
    }
  }

  // ------------------------------------------------------------- the objective

  /** The records, expression and next free variable of a partly built objective. */
  datatype Plan = Plan(records: seq<Record>, expr: Expr, next: nat)

  /** `expr += weight_makespan * self._makespan_expr()` when the weight is positive. */
  function WithMakespan(p: Plan, w: int, taskEnds: seq<Var>, horizon: int): Plan
  {
    if w > 0 then Plan(p.records + MakespanRecords(taskEnds, horizon, p.next), Plus(p.expr, Times(w, Value(p.next))), p.next + 1)
    else p
  }

  /** `expr += weight * self._<component>_expr()` when the weight is positive. */
  function WithComponent(p: Plan, w: int, c: JobComponent, jobs: seq<Job>, jobEnds: seq<Var>, horizon: int): Plan
    requires |jobEnds| == |jobs| && (w > 0 ==> Usable(c, jobs))
  {
    if w > 0 then
      Plan(p.records + ComponentRecords(c, jobs, jobEnds, horizon, p.next, |jobs|),
           Plus(p.expr, Times(w, ComponentExpr(jobs, p.next))), p.next + |jobs|)
    else p
  }

  /** What `_objective_expr` builds, from variable number `base` on, in the source's order. */
  function ObjectivePlan(o: Objective, jobs: seq<Job>, jobEnds: seq<Var>, taskEnds: seq<Var>, horizon: int, base: nat): Plan
    requires |jobEnds| == |jobs| && (NeedsDueDates(o) ==> DueDatesSet(jobs))
  {
    var p1 := WithMakespan(Plan([], Num(0), base), o.weightMakespan, taskEnds, horizon);
    var p2 := WithComponent(p1, o.weightTardyJobs, Tardy, jobs, jobEnds, horizon);
    var p3 := WithComponent(p2, o.weightTotalTardiness, Tardiness, jobs, jobEnds, horizon);
    var p4 := WithComponent(p3, o.weightTotalFlowTime, FlowTime, jobs, jobEnds, horizon);
    WithComponent(p4, o.weightTotalEarliness, Earliness, jobs, jobEnds, horizon)
  }

  /** `Objective`: the model, the jobs and horizon, and the end variables of tasks and jobs. */
  class ObjectiveBuilder {
    const model: Model
    const jobs: seq<Job>
    const horizon: int
    const taskEnds: seq<Var>
    const jobEnds: seq<Var>

    constructor (model: Model, d: SolverData, taskVars: seq<TaskVar>, jobVars: seq<JobVar>)
      ensures this.model == model && jobs == d.jobs && horizon == d.horizon
      ensures |taskEnds| == |taskVars| && forall k :: 0 <= k < |taskVars| ==> taskEnds[k] == taskVars[k].end
      ensures |jobEnds| == |jobVars| && forall k :: 0 <= k < |jobVars| ==> jobEnds[k] == jobVars[k].end
    {
      this.model := model;
      jobs := d.jobs;
      horizon := d.horizon;
      taskEnds := seq(|taskVars|, k requires 0 <= k < |taskVars| => taskVars[k].end);
      jobEnds := seq(|jobVars|, k requires 0 <= k < |jobVars| => jobVars[k].end);
    }

    /** `_objective_expr`: the components of positive weight, in the source's order. */
    method ObjectiveExpr(o: Objective) returns (e: Expr)
      requires |jobEnds| == |jobs| && (NeedsDueDates(o) ==> DueDatesSet(jobs))
      modifies model
      ensures var p := ObjectivePlan(o, jobs, jobEnds, taskEnds, horizon, old(model.next));
              model.log == old(model.log) + p.records && e == p.expr && model.next == p.next
      ensures model.hints == old(model.hints) && model.objective == old(model.objective)
    {
      var m := model;
      ghost var log0 := m.log;
      ghost var p := Plan([], Num(0), m.next);
      e := Num(0);
      if o.weightMakespan > 0 {
        var mk := MakespanExpr(m, taskEnds, horizon);
        AppendAssoc(log0, p.records, MakespanRecords(taskEnds, horizon, p.next));
        e := Plus(e, Times(o.weightMakespan, mk));
      }
      p := WithMakespan(p, o.weightMakespan, taskEnds, horizon);
      e := AddComponent(e, p, o.weightTardyJobs, Tardy, log0);
      p := WithComponent(p, o.weightTardyJobs, Tardy, jobs, jobEnds, horizon);
      e := AddComponent(e, p, o.weightTotalTardiness, Tardiness, log0);
      p := WithComponent(p, o.weightTotalTardiness, Tardiness, jobs, jobEnds, horizon);
      e := AddComponent(e, p, o.weightTotalFlowTime, FlowTime, log0);
      p := WithComponent(p, o.weightTotalFlowTime, FlowTime, jobs, jobEnds, horizon);
      e := AddComponent(e, p, o.weightTotalEarliness, Earliness, log0);
    }

    /** `if weight > 0: expr += weight * self._<component>_expr()`. */
    method AddComponent(e0: Expr, ghost p: Plan, w: int, c: JobComponent, ghost log0: seq<Record>) returns (e: Expr)
      requires |jobEnds| == |jobs| && (w > 0 ==> Usable(c, jobs))
      requires model.log == log0 + p.records && e0 == p.expr && model.next == p.next
      modifies model
      ensures var q := WithComponent(p, w, c, jobs, jobEnds, horizon);
              model.log == log0 + q.records && e == q.expr && model.next == q.next
      ensures model.hints == old(model.hints) && model.objective == old(model.objective)
    {
      e := e0;
      if w > 0 {
        var ce := JobComponentExpr(model, c, jobs, jobEnds, horizon);
        AppendAssoc(log0, p.records, ComponentRecords(c, jobs, jobEnds, horizon, p.next, |jobs|));
        e := Plus(e, Times(w, ce));
      }
    }

    /** `set_objective`: the previous objective is cleared, then the new expression is minimised. */
    method SetObjective(o: Objective)
      requires |jobEnds| == |jobs| && (NeedsDueDates(o) ==> DueDatesSet(jobs))
      modifies model
      ensures var p := ObjectivePlan(o, jobs, jobEnds, taskEnds, horizon, old(model.next));
              model.log == old(model.log) + p.records && model.next == p.next && model.objective == Some(p.expr)
      ensures model.hints == old(model.hints)
    {
      model.ClearObjective();
      var e := ObjectiveExpr(o);
      model.Minimize(e);
    }
  }

  // ------------------------------------------------------------------ meaning

  lemma {:induction false} WithMakespanMeaning(p: Plan, w: int, taskEnds: seq<Var>, horizon: int, val: Valuation)
    requires Satisfies(WithMakespan(p, w, taskEnds, horizon).records, val)
    ensures Satisfies(p.records, val)
    ensures Eval(WithMakespan(p, w, taskEnds, horizon).expr, val) == Eval(p.expr, val) + Term(w, MakespanValue(EndValues(taskEnds, val)))
  {
    if w > 0 {
      SatisfiesLeft(p.records, MakespanRecords(taskEnds, horizon, p.next), val);
      SatisfiesRight(p.records, MakespanRecords(taskEnds, horizon, p.next), val);
      MakespanMeaning(taskEnds, horizon, p.next, val);
      assert Eval(Times(w, Value(p.next)), val) == w * val(p.next);
    }
  }

  lemma {:induction false} WithComponentMeaning(p: Plan, w: int, c: JobComponent, jobs: seq<Job>, jobEnds: seq<Var>, horizon: int, val: Valuation)
    requires |jobEnds| == |jobs| && (w > 0 ==> Usable(c, jobs))
    requires Satisfies(WithComponent(p, w, c, jobs, jobEnds, horizon).records, val)
    ensures Satisfies(p.records, val)
    ensures Eval(WithComponent(p, w, c, jobs, jobEnds, horizon).expr, val) ==
            Eval(p.expr, val) + if w > 0 then w * ComponentValue(c, jobs, EndValues(jobEnds, val), |jobs|) else 0
  {
    if w > 0 {
      var recs := ComponentRecords(c, jobs, jobEnds, horizon, p.next, |jobs|);
      SatisfiesLeft(p.records, recs, val);
      SatisfiesRight(p.records, recs, val);
      ComponentMeaning(c, jobs, jobEnds, horizon, p.next, val);
    }
  }

  /**
   * Objective consistency: on a valuation satisfying the objective's records,
   * the minimised expression equals the objective value recomputed from the
   * task and job end times.
   */
  lemma {:induction false} ObjectiveMeaning(o: Objective, jobs: seq<Job>, jobEnds: seq<Var>, taskEnds: seq<Var>, horizon: int, base: nat, val: Valuation)
    requires |jobEnds| == |jobs| && (NeedsDueDates(o) ==> DueDatesSet(jobs))
    requires Satisfies(ObjectivePlan(o, jobs, jobEnds, taskEnds, horizon, base).records, val)
    ensures Eval(ObjectivePlan(o, jobs, jobEnds, taskEnds, horizon, base).expr, val) ==
            ObjectiveValue(o, jobs, EndValues(taskEnds, val), EndValues(jobEnds, val))
  {
    var p0 := Plan([], Num(0), base);
    var p1 := WithMakespan(p0, o.weightMakespan, taskEnds, horizon);
    var p2 := WithComponent(p1, o.weightTardyJobs, Tardy, jobs, jobEnds, horizon);
    var p3 := WithComponent(p2, o.weightTotalTardiness, Tardiness, jobs, jobEnds, horizon);
    var p4 := WithComponent(p3, o.weightTotalFlowTime, FlowTime, jobs, jobEnds, horizon);
    WithComponentMeaning(p4, o.weightTotalEarliness, Earliness, jobs, jobEnds, horizon, val);
    WithComponentMeaning(p3, o.weightTotalFlowTime, FlowTime, jobs, jobEnds, horizon, val);
    WithComponentMeaning(p2, o.weightTotalTardiness, Tardiness, jobs, jobEnds, horizon, val);
    WithComponentMeaning(p1, o.weightTardyJobs, Tardy, jobs, jobEnds, horizon, val);
    WithMakespanMeaning(p0, o.weightMakespan, taskEnds, horizon, val);
  }

  /** With no positive weight the objective is the constant 0 and nothing is added. */
  lemma {:induction false} ZeroWeightsObjective(o: Objective, jobs: seq<Job>, jobEnds: seq<Var>, taskEnds: seq<Var>, horizon: int, base: nat)
    requires |jobEnds| == |jobs|
    requires o.weightMakespan <= 0 && o.weightTardyJobs <= 0 && o.weightTotalFlowTime <= 0
    requires o.weightTotalTardiness <= 0 && o.weightTotalEarliness <= 0
    ensures ObjectivePlan(o, jobs, jobEnds, taskEnds, horizon, base) == Plan([], Num(0), base)
  {
  }
}
