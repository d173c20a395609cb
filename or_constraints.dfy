/**
 * The constraint builders of the OR-Tools back end
 * (`pyjobshop/solvers/ortools/Constraints.py`). Each `_..._constraints`
 * method is a method here that appends records to the model's log; a
 * function of the inputs states exactly which records, in which order, and
 * lemmas state what a valuation satisfying them means for the schedule.
 *
 * This file reads a newer variables interface than the one in
 * `pyjobshop/solvers/ortools/Variables.py` (assignment, demand and break
 * variables, a processing variable per task, arcs keyed by task indices), so
 * the variables it reads are the abstract record `Vars` below.
 */
module OrConstraints {
  import opened Wrappers
  import opened ProblemData
  import opened Constraints
  import opened SolverUtils
  import opened SolverData
  import opened CpLog

  // ----------------------------------------------------------------- inputs

  /** A timing constraint `(idx1, idx2, delay)`. */
  datatype Timing = Timing(task1: nat, task2: nat, delay: int)

  /** A same-sequence constraint; omitted task lists default to the resource's tasks. */
  datatype SameSequence = SameSequence(res1: nat, res2: nat, tasks1: Option<seq<nat>>, tasks2: Option<seq<nat>>)

  /** A mode dependency: selecting `mode1` needs one of `modes2`. */
  datatype ModeDependency = ModeDependency(mode1: nat, modes2: seq<nat>)

  /** A task selection group with an optional condition task. */
  datatype Selection = Selection(tasks: seq<nat>, condition: Option<nat>)

  datatype SolverConstraints = SolverConstraints(
    startBeforeStart: seq<Timing>,
    startBeforeEnd: seq<Timing>,
    endBeforeStart: seq<Timing>,
    endBeforeEnd: seq<Timing>,
    identicalResources: seq<(nat, nat)>,
    differentResources: seq<(nat, nat)>,
    consecutive: seq<(nat, nat)>,
    sameSequence: seq<SameSequence>,
    setupTimes: seq<SetupTime>,
    modeDependencies: seq<ModeDependency>,
    selectAllOrNone: seq<Selection>,
    selectAtLeastOne: seq<Selection>,
    selectExactlyOne: seq<Selection>)

  /** The variables of one task. */
  datatype TaskVars = TaskVars(start: Var, end: Var, processing: Var, breaks: Var, present: Lit)

  /** The optional interval of a task on one resource. */
  datatype AssignVar = AssignVar(interval: Interval, start: Var, end: Var, present: Lit)

  /** One admissible break overlap of a mode: its selection literal, its length and its start domain. */
  datatype BreakVar = BreakVar(selected: Lit, duration: int, startDomain: set<int>)

  /**
   * The variables the builders read. `assign` and `demand` are keyed by
   * (task, resource); `resAssign(r)` and `resDemand(r)` are the intervals and
   * demands of the assignments to resource `r`; `arc(r, i, j)` is the arc
   * literal from node `i` to node `j` in the sequence of machine `r`, and
   * `graph(r)` lists that sequence's arcs as (tail, head, literal).
   */
  datatype Vars = Vars(
    jobs: seq<(Var, Var)>,
    tasks: seq<TaskVars>,
    modes: seq<Lit>,
    assign: map<(int, int), AssignVar>,
    demand: map<(int, int), Var>,
    breaks: seq<seq<BreakVar>>,
    resAssign: int -> seq<Interval>,
    resDemand: int -> seq<Expr>,
    arc: (int, int, int) -> Lit,
    graph: int -> seq<(int, int, Lit)>)

  /** The presence literals of the listed tasks. */
  function Presences(v: Vars, tasks: seq<nat>): (r: seq<Lit>)
    requires TasksIn(v, tasks)
    ensures |r| == |tasks| && forall i :: 0 <= i < |tasks| ==> r[i] == v.tasks[tasks[i]].present
  {
    if tasks == [] then [] else Presences(v, tasks[..|tasks| - 1]) + [v.tasks[tasks[|tasks| - 1]].present]
  }

  /** The mode literal of mode `m`, constant false for a mode without variables. */
  function ModeLit(v: Vars, m: nat): Lit
  {
    if m < |v.modes| then v.modes[m] else Const(false)
  }

  function ModeLitsOf(v: Vars, modes: seq<nat>): (r: seq<Lit>)
    ensures |r| == |modes| && forall i :: 0 <= i < |modes| ==> r[i] == ModeLit(v, modes[i])
  {
    if modes == [] then [] else ModeLitsOf(v, modes[..|modes| - 1]) + [ModeLit(v, modes[|modes| - 1])]
  }

  /** The task presences are 0/1 under `val`. */
  predicate TasksBool(v: Vars, val: Valuation)
  {
    forall i :: 0 <= i < |v.tasks| ==> IsBool(val, v.tasks[i].present)
  }

  predicate ModesBool(v: Vars, val: Valuation)
  {
    forall i :: 0 <= i < |v.modes| ==> IsBool(val, v.modes[i])
  }

  predicate AssignBool(v: Vars, val: Valuation)
  {
    forall k :: k in v.assign ==> IsBool(val, v.assign[k].present)
  }

  lemma {:induction false} PresencesBool(v: Vars, tasks: seq<nat>, val: Valuation)
    requires TasksBool(v, val) && TasksIn(v, tasks)
    ensures AllBool(Presences(v, tasks), val)
  {
  }

  lemma {:induction false} ModeLitsBool(v: Vars, modes: seq<nat>, val: Valuation)
    requires ModesBool(v, val)
    ensures AllBool(ModeLitsOf(v, modes), val)
  {
  }

  // ------------------------------------------------------------- job spans

  /** Every listed task has variables. */
  predicate TasksIn(v: Vars, tasks: seq<int>)
  {
    forall i :: 0 <= i < |tasks| ==> 0 <= tasks[i] < |v.tasks|
  }

  predicate JobsKnown(d: SolverData, v: Vars)
  {
    |v.jobs| == |d.jobs| && forall j :: 0 <= j < |d.jobs| ==> TasksIn(v, d.jobs[j].tasks)
  }

  function Starts(v: Vars, tasks: seq<int>): (r: seq<Expr>)
    requires TasksIn(v, tasks)
    ensures |r| == |tasks| && forall i :: 0 <= i < |tasks| ==> r[i] == Value(v.tasks[tasks[i]].start)
  {
    if tasks == [] then [] else Starts(v, tasks[..|tasks| - 1]) + [Value(v.tasks[tasks[|tasks| - 1]].start)]
  }

  function Ends(v: Vars, tasks: seq<int>): (r: seq<Expr>)
    requires TasksIn(v, tasks)
    ensures |r| == |tasks| && forall i :: 0 <= i < |tasks| ==> r[i] == Value(v.tasks[tasks[i]].end)
  {
    if tasks == [] then [] else Ends(v, tasks[..|tasks| - 1]) + [Value(v.tasks[tasks[|tasks| - 1]].end)]
  }

  /** The two records of one job: its start is the minimum task start, its end the maximum task end. */
  function JobSpanBlock(v: Vars, job: Job, jv: (Var, Var)): seq<Record>
    requires TasksIn(v, job.tasks)
  {
    [MinEquality(Value(jv.0), Starts(v, job.tasks)), MaxEquality(Value(jv.1), Ends(v, job.tasks))]
  }

  function JobSpanRecords(d: SolverData, v: Vars, n: nat): seq<Record>
    requires JobsKnown(d, v) && n <= |d.jobs|
  {
    if n == 0 then [] else JobSpanRecords(d, v, n - 1) + JobSpanBlock(v, d.jobs[n - 1], v.jobs[n - 1])
  }

  lemma {:induction false} JobSpanRecordsSatisfied(d: SolverData, v: Vars, n: nat, val: Valuation, k: nat)
    requires JobsKnown(d, v) && k < n <= |d.jobs| && Satisfies(JobSpanRecords(d, v, n), val)
    ensures Satisfies(JobSpanBlock(v, d.jobs[k], v.jobs[k]), val)
  {
    JobSpanPrefixSatisfied(d, v, n, val, k + 1);
    JobSpanDropLast(d, v, k, val);
  }

  /** Dropping the last job's block keeps the records satisfied. */
  lemma {:induction false} JobSpanDropLast(d: SolverData, v: Vars, j: nat, val: Valuation)
    requires JobsKnown(d, v) && j < |d.jobs| && Satisfies(JobSpanRecords(d, v, j + 1), val)
    ensures Satisfies(JobSpanRecords(d, v, j), val) && Satisfies(JobSpanBlock(v, d.jobs[j], v.jobs[j]), val)
  {
    assert JobSpanRecords(d, v, j + 1) == JobSpanRecords(d, v, j) + JobSpanBlock(v, d.jobs[j], v.jobs[j]);
    SatisfiesConcat(JobSpanRecords(d, v, j), JobSpanBlock(v, d.jobs[j], v.jobs[j]), val);
  }

  /** The records of fewer jobs are satisfied too. */
  lemma {:induction false} JobSpanPrefixSatisfied(d: SolverData, v: Vars, n: nat, val: Valuation, k: nat)
    requires JobsKnown(d, v) && k <= n <= |d.jobs| && Satisfies(JobSpanRecords(d, v, n), val)
    ensures Satisfies(JobSpanRecords(d, v, k), val)
    decreases n - k
  {
    if k < n {
      JobSpanPrefixSatisfied(d, v, n, val, k + 1);
      JobSpanDropLast(d, v, k, val);
    }
  }

  /** `_job_spans_tasks`. */
  method JobSpansTasks(m: Model, d: SolverData, v: Vars)
    requires JobsKnown(d, v)
    modifies m
    ensures m.log == old(m.log) + JobSpanRecords(d, v, |d.jobs|)
    ensures m.next == old(m.next) && m.hints == old(m.hints) && m.objective == old(m.objective)
  {
    ghost var log0 := m.log;
    var idx := 0;
    while idx < |d.jobs|
      invariant idx <= |d.jobs|
      invariant m.log == log0 + JobSpanRecords(d, v, idx)
      invariant m.next == old(m.next) && m.hints == old(m.hints) && m.objective == old(m.objective)
    {
      AddJobSpan(m, d, v, idx, log0);
      idx := idx + 1;
    }
  }

  /** One turn of the loop over the jobs. */
  method AddJobSpan(m: Model, d: SolverData, v: Vars, idx: nat, ghost log0: seq<Record>)
    requires JobsKnown(d, v) && idx < |d.jobs| && m.log == log0 + JobSpanRecords(d, v, idx)
    modifies m
    ensures m.log == log0 + JobSpanRecords(d, v, idx + 1)
    ensures m.next == old(m.next) && m.hints == old(m.hints) && m.objective == old(m.objective)
  {
    var job := d.jobs[idx];
    var jobVar := v.jobs[idx];
    var starts := Starts(v, job.tasks);
    var ends := Ends(v, job.tasks);
    ghost var x := m.log;
    m.Add(MinEquality(Value(jobVar.0), starts));
    m.Add(MaxEquality(Value(jobVar.1), ends));
    AppendAssoc(x, [MinEquality(Value(jobVar.0), starts)], [MaxEquality(Value(jobVar.1), ends)]);
    AppendAssoc(log0, JobSpanRecords(d, v, idx), JobSpanBlock(v, job, jobVar));
    assert JobSpanRecords(d, v, idx + 1) == JobSpanRecords(d, v, idx) + JobSpanBlock(v, job, jobVar);
  }

  /**
   * A satisfying valuation starts every job at the earliest start of its
   * tasks and ends it at the latest end; a job without tasks has no such
   * valuation.
   */
  lemma {:induction false} JobSpanMeaning(d: SolverData, v: Vars, val: Valuation, j: nat)
    requires JobsKnown(d, v) && j < |d.jobs| && Satisfies(JobSpanRecords(d, v, |d.jobs|), val)
    ensures d.jobs[j].tasks != []
    ensures forall k :: 0 <= k < |d.jobs[j].tasks| ==>
              val(v.jobs[j].0) <= val(v.tasks[d.jobs[j].tasks[k]].start)
              && val(v.tasks[d.jobs[j].tasks[k]].end) <= val(v.jobs[j].1)
    ensures exists k :: 0 <= k < |d.jobs[j].tasks| && val(v.jobs[j].0) == val(v.tasks[d.jobs[j].tasks[k]].start)
    ensures exists k :: 0 <= k < |d.jobs[j].tasks| && val(v.jobs[j].1) == val(v.tasks[d.jobs[j].tasks[k]].end)
  {
    JobSpanRecordsSatisfied(d, v, |d.jobs|, val, j);
    JobSpanBlockMeaning(v, d.jobs[j], v.jobs[j], val);
  }

  /** One job's two records, satisfied: the job spans its tasks exactly. */
  lemma {:induction false} JobSpanBlockMeaning(v: Vars, job: Job, jv: (Var, Var), val: Valuation)
    requires TasksIn(v, job.tasks) && Satisfies(JobSpanBlock(v, job, jv), val)
    ensures job.tasks != []
    ensures forall k :: 0 <= k < |job.tasks| ==>
              val(jv.0) <= val(v.tasks[job.tasks[k]].start) && val(v.tasks[job.tasks[k]].end) <= val(jv.1)
    ensures exists k :: 0 <= k < |job.tasks| && val(jv.0) == val(v.tasks[job.tasks[k]].start)
    ensures exists k :: 0 <= k < |job.tasks| && val(jv.1) == val(v.tasks[job.tasks[k]].end)
  {
    var block := JobSpanBlock(v, job, jv);
    assert Holds(block[0], val) && Holds(block[1], val);
    JobStartMeaning(v, job.tasks, jv.0, val);
    JobEndMeaning(v, job.tasks, jv.1, val);
  }

  /** A satisfied minimum equality puts the job's start at the earliest start of its tasks. */
  lemma JobStartMeaning(v: Vars, tasks: seq<int>, x: Var, val: Valuation)
    requires TasksIn(v, tasks) && Holds(MinEquality(Value(x), Starts(v, tasks)), val)
    ensures tasks != []
    ensures forall k :: 0 <= k < |tasks| ==> val(x) <= val(v.tasks[tasks[k]].start)
    ensures exists k :: 0 <= k < |tasks| && val(x) == val(v.tasks[tasks[k]].start)
  {
    var starts := Values(Starts(v, tasks), val);
    assert forall k :: 0 <= k < |tasks| ==> starts[k] == val(v.tasks[tasks[k]].start);
  }

  /** A satisfied maximum equality puts the job's end at the latest end of its tasks. */
  lemma JobEndMeaning(v: Vars, tasks: seq<int>, x: Var, val: Valuation)
    requires TasksIn(v, tasks) && Holds(MaxEquality(Value(x), Ends(v, tasks)), val)
    ensures tasks != []
    ensures forall k :: 0 <= k < |tasks| ==> val(v.tasks[tasks[k]].end) <= val(x)
    ensures exists k :: 0 <= k < |tasks| && val(x) == val(v.tasks[tasks[k]].end)
  {
    var ends := Values(Ends(v, tasks), val);
    assert forall k :: 0 <= k < |tasks| ==> ends[k] == val(v.tasks[tasks[k]].end);
  }

  // ---------------------------------------------------------------- timing

  /** Which points of the two tasks a timing list relates. */
  datatype TimingKind = StartStart | StartEnd | EndStart | EndEnd

  function First(kind: TimingKind, t: TaskVars): Var
  {
    if kind == StartStart || kind == StartEnd then t.start else t.end
  }

  function Second(kind: TimingKind, t: TaskVars): Var
  {
    if kind == StartStart || kind == EndStart then t.start else t.end
  }

  predicate TimingsKnown(v: Vars, cs: seq<Timing>)
  {
    forall k :: 0 <= k < |cs| ==> cs[k].task1 < |v.tasks| && cs[k].task2 < |v.tasks|
  }

  /** `model.add(x1 + delay <= x2).only_enforce_if([present1, present2])`. */
  function TimingRecord(v: Vars, kind: TimingKind, c: Timing): Record
    requires c.task1 < |v.tasks| && c.task2 < |v.tasks|
  {
    var t1 := v.tasks[c.task1];
    var t2 := v.tasks[c.task2];
    Linear([t1.present, t2.present], Plus(Value(First(kind, t1)), Num(c.delay)), Le, Value(Second(kind, t2)))
  }

  function TimingRecords(v: Vars, kind: TimingKind, cs: seq<Timing>, n: nat): seq<Record>
    requires TimingsKnown(v, cs) && n <= |cs|
  {
    if n == 0 then [] else TimingRecords(v, kind, cs, n - 1) + [TimingRecord(v, kind, cs[n - 1])]
  }

  lemma {:induction false} TimingRecordsSatisfied(v: Vars, kind: TimingKind, cs: seq<Timing>, n: nat, val: Valuation, k: nat)
    requires TimingsKnown(v, cs) && k < n <= |cs| && Satisfies(TimingRecords(v, kind, cs, n), val)
    ensures Holds(TimingRecord(v, kind, cs[k]), val)
  {
    SatisfiesConcat(TimingRecords(v, kind, cs, n - 1), [TimingRecord(v, kind, cs[n - 1])], val);
    if k < n - 1 {
      TimingRecordsSatisfied(v, kind, cs, n - 1, val, k);
    } else {
      assert [TimingRecord(v, kind, cs[k])][0] == TimingRecord(v, kind, cs[k]);
    }
  }

  /** One of the four loops of `_timing_constraints`. */
  method AddTimings(m: Model, v: Vars, kind: TimingKind, cs: seq<Timing>)
    requires TimingsKnown(v, cs)
    modifies m
    ensures m.log == old(m.log) + TimingRecords(v, kind, cs, |cs|)
    ensures m.next == old(m.next) && m.hints == old(m.hints) && m.objective == old(m.objective)
  {
    ghost var log0 := m.log;
    var idx := 0;
    while idx < |cs|
      invariant idx <= |cs|
      invariant m.log == log0 + TimingRecords(v, kind, cs, idx)
      invariant m.next == old(m.next) && m.hints == old(m.hints) && m.objective == old(m.objective)
    {
      m.Add(TimingRecord(v, kind, cs[idx]));
      AppendAssoc(log0, TimingRecords(v, kind, cs, idx), [TimingRecord(v, kind, cs[idx])]);
      idx := idx + 1;
    }
  }

  predicate AllTimingsKnown(v: Vars, c: SolverConstraints)
  {
    && TimingsKnown(v, c.startBeforeStart) && TimingsKnown(v, c.startBeforeEnd)
    && TimingsKnown(v, c.endBeforeStart) && TimingsKnown(v, c.endBeforeEnd)
  }

  function TimingConstraintRecords(v: Vars, c: SolverConstraints): seq<Record>
    requires AllTimingsKnown(v, c)
  {
    TimingRecords(v, StartStart, c.startBeforeStart, |c.startBeforeStart|)
    + TimingRecords(v, StartEnd, c.startBeforeEnd, |c.startBeforeEnd|)
    + TimingRecords(v, EndStart, c.endBeforeStart, |c.endBeforeStart|)
    + TimingRecords(v, EndEnd, c.endBeforeEnd, |c.endBeforeEnd|)
  }

  /** `_timing_constraints`: the four lists in this order. */
  method TimingConstraints(m: Model, v: Vars, c: SolverConstraints)
    requires AllTimingsKnown(v, c)
    modifies m
    ensures m.log == old(m.log) + TimingConstraintRecords(v, c)
    ensures m.next == old(m.next) && m.hints == old(m.hints) && m.objective == old(m.objective)
  {
    ghost var x := m.log;
    ghost var a := TimingRecords(v, StartStart, c.startBeforeStart, |c.startBeforeStart|);
    ghost var b := TimingRecords(v, StartEnd, c.startBeforeEnd, |c.startBeforeEnd|);
    ghost var e := TimingRecords(v, EndStart, c.endBeforeStart, |c.endBeforeStart|);
    AddTimings(m, v, StartStart, c.startBeforeStart);
    AddTimings(m, v, StartEnd, c.startBeforeEnd);
    AppendAssoc(x, a, b);
    AddTimings(m, v, EndStart, c.endBeforeStart);
    AppendAssoc(x, a + b, e);
    AddTimings(m, v, EndEnd, c.endBeforeEnd);
    AppendAssoc(x, a + b + e, TimingRecords(v, EndEnd, c.endBeforeEnd, |c.endBeforeEnd|));
  }

  /**
   * When both tasks are present, a satisfying valuation puts the first
   * task's point plus the delay at or before the second task's point; when
   * either is absent the record constrains nothing.
   */
  lemma {:induction false} TimingMeaning(v: Vars, kind: TimingKind, cs: seq<Timing>, val: Valuation, k: nat)
    requires TimingsKnown(v, cs) && k < |cs| && Satisfies(TimingRecords(v, kind, cs, |cs|), val)
    requires LitTrue(v.tasks[cs[k].task1].present, val) && LitTrue(v.tasks[cs[k].task2].present, val)
    ensures val(First(kind, v.tasks[cs[k].task1])) + cs[k].delay <= val(Second(kind, v.tasks[cs[k].task2]))
  {
    TimingRecordsSatisfied(v, kind, cs, |cs|, val, k);
    var t1 := v.tasks[cs[k].task1];
    var t2 := v.tasks[cs[k].task2];
    assert AllTrue([t1.present, t2.present], val);
    assert Eval(Plus(Value(First(kind, t1)), Num(cs[k].delay)), val) <= Eval(Value(Second(kind, t2)), val);
  }

  /** An absent task leaves every valuation satisfying its timing record. */
  lemma {:induction false} TimingVacuous(v: Vars, kind: TimingKind, c: Timing, val: Valuation)
    requires c.task1 < |v.tasks| && c.task2 < |v.tasks|
    requires !LitTrue(v.tasks[c.task1].present, val) || !LitTrue(v.tasks[c.task2].present, val)
    ensures Holds(TimingRecord(v, kind, c), val)
  {
    var t1 := v.tasks[c.task1];
    var t2 := v.tasks[c.task2];
    assert !AllTrue([t1.present, t2.present], val) by {
      if !LitTrue(t1.present, val) {
        assert !LitTrue([t1.present, t2.present][0], val);
      } else {
        assert !LitTrue([t1.present, t2.present][1], val);
      }
    }
  }

  // ---------------------------------------- identical and different resources

  /** `assign.present if assign else 0`, as an expression. */
  function PresenceExpr(v: Vars, t: int, r: int): Expr
  {
    if (t, r) in v.assign then Bool(v.assign[(t, r)].present) else Num(0)
  }

  /** The same, as an enforcement literal: a missing assignment is constant false. */
  function PresenceLit(v: Vars, t: int, r: int): Lit
  {
    if (t, r) in v.assign then v.assign[(t, r)].present else Const(false)
  }

  /** Task `t` has an assignment to resource `r` and it is present. */
  predicate Assigned(v: Vars, val: Valuation, t: int, r: int)
  {
    (t, r) in v.assign && LitTrue(v.assign[(t, r)].present, val)
  }

  lemma {:induction false} PresenceValue(v: Vars, val: Valuation, t: int, r: int)
    requires AssignBool(v, val)
    ensures Eval(PresenceExpr(v, t, r), val) == if Assigned(v, val, t, r) then 1 else 0
    ensures LitTrue(PresenceLit(v, t, r), val) <==> Assigned(v, val, t, r)
  {
    if (t, r) in v.assign {
      BoolValue(v.assign[(t, r)].present, val);
    }
  }

  /** The records of one identical-resources pair over resources `0 .. n-1`. */
  function IdenticalRow(v: Vars, t1: int, t2: int, n: nat): seq<Record>
  {
    if n == 0 then [] else IdenticalRow(v, t1, t2, n - 1) + [Linear([], PresenceExpr(v, t1, n - 1), Eq, PresenceExpr(v, t2, n - 1))]
  }

  function DifferentRow(v: Vars, t1: int, t2: int, n: nat): seq<Record>
  {
    if n == 0 then [] else DifferentRow(v, t1, t2, n - 1) + [Linear([PresenceLit(v, t1, n - 1)], PresenceExpr(v, t2, n - 1), Eq, Num(0))]
  }

  function IdenticalRecords(v: Vars, pairs: seq<(nat, nat)>, numResources: nat, n: nat): seq<Record>
    requires n <= |pairs|
  {
    if n == 0 then [] else IdenticalRecords(v, pairs, numResources, n - 1) + IdenticalRow(v, pairs[n - 1].0, pairs[n - 1].1, numResources)
  }

  function DifferentRecords(v: Vars, pairs: seq<(nat, nat)>, numResources: nat, n: nat): seq<Record>
    requires n <= |pairs|
  {
    if n == 0 then [] else DifferentRecords(v, pairs, numResources, n - 1) + DifferentRow(v, pairs[n - 1].0, pairs[n - 1].1, numResources)
  }

  method AddIdenticalRow(m: Model, v: Vars, t1: int, t2: int, numResources: nat)
    modifies m
    ensures m.log == old(m.log) + IdenticalRow(v, t1, t2, numResources)
    ensures m.next == old(m.next) && m.hints == old(m.hints) && m.objective == old(m.objective)
  {
    ghost var log0 := m.log;
    var res := 0;
    while res < numResources
      invariant res <= numResources
      invariant m.log == log0 + IdenticalRow(v, t1, t2, res)
      invariant m.next == old(m.next) && m.hints == old(m.hints) && m.objective == old(m.objective)
    {
      var presence1 := PresenceExpr(v, t1, res);
      var presence2 := PresenceExpr(v, t2, res);
      m.Add(Linear([], presence1, Eq, presence2));
      AppendAssoc(log0, IdenticalRow(v, t1, t2, res), [Linear([], presence1, Eq, presence2)]);
      res := res + 1;
    }
  }

  method AddDifferentRow(m: Model, v: Vars, t1: int, t2: int, numResources: nat)
    modifies m
    ensures m.log == old(m.log) + DifferentRow(v, t1, t2, numResources)
    ensures m.next == old(m.next) && m.hints == old(m.hints) && m.objective == old(m.objective)
  {
    ghost var log0 := m.log;
    var res := 0;
    while res < numResources
      invariant res <= numResources
      invariant m.log == log0 + DifferentRow(v, t1, t2, res)
      invariant m.next == old(m.next) && m.hints == old(m.hints) && m.objective == old(m.objective)
    {
      var presence1 := PresenceLit(v, t1, res);
      var presence2 := PresenceExpr(v, t2, res);
      m.Add(Linear([presence1], presence2, Eq, Num(0)));
      AppendAssoc(log0, DifferentRow(v, t1, t2, res), [Linear([presence1], presence2, Eq, Num(0))]);
      res := res + 1;
    }
  }

  function IdenticalAndDifferentRecords(d: SolverData, v: Vars, c: SolverConstraints): seq<Record>
  {
    IdenticalRecords(v, c.identicalResources, |d.resources|, |c.identicalResources|)
    + DifferentRecords(v, c.differentResources, |d.resources|, |c.differentResources|)
  }

  /** `_identical_and_different_resource_constraints`. */
  method IdenticalAndDifferentResourceConstraints(m: Model, d: SolverData, v: Vars, c: SolverConstraints)
    modifies m
    ensures m.log == old(m.log) + IdenticalAndDifferentRecords(d, v, c)
    ensures m.next == old(m.next) && m.hints == old(m.hints) && m.objective == old(m.objective)
  {
    ghost var x := m.log;
    AddIdenticalRows(m, v, c.identicalResources, |d.resources|);
    AddDifferentRows(m, v, c.differentResources, |d.resources|);
    AppendAssoc(x, IdenticalRecords(v, c.identicalResources, |d.resources|, |c.identicalResources|),
                DifferentRecords(v, c.differentResources, |d.resources|, |c.differentResources|));
  }

  /** The loop over the identical-resources pairs. */
  method AddIdenticalRows(m: Model, v: Vars, pairs: seq<(nat, nat)>, numResources: nat)
    modifies m
    ensures m.log == old(m.log) + IdenticalRecords(v, pairs, numResources, |pairs|)
    ensures m.next == old(m.next) && m.hints == old(m.hints) && m.objective == old(m.objective)
  {
    ghost var log0 := m.log;
    var idx := 0;
    while idx < |pairs|
      invariant idx <= |pairs|
      invariant m.log == log0 + IdenticalRecords(v, pairs, numResources, idx)
      invariant m.next == old(m.next) && m.hints == old(m.hints) && m.objective == old(m.objective)
    {
      var (t1, t2) := pairs[idx];
      AddIdenticalRow(m, v, t1, t2, numResources);
      AppendAssoc(log0, IdenticalRecords(v, pairs, numResources, idx), IdenticalRow(v, t1, t2, numResources));
      idx := idx + 1;
    }
  }

  /** The loop over the different-resources pairs. */
  method AddDifferentRows(m: Model, v: Vars, pairs: seq<(nat, nat)>, numResources: nat)
    modifies m
    ensures m.log == old(m.log) + DifferentRecords(v, pairs, numResources, |pairs|)
    ensures m.next == old(m.next) && m.hints == old(m.hints) && m.objective == old(m.objective)
  {
    ghost var log0 := m.log;
    var idx := 0;
    while idx < |pairs|
      invariant idx <= |pairs|
      invariant m.log == log0 + DifferentRecords(v, pairs, numResources, idx)
      invariant m.next == old(m.next) && m.hints == old(m.hints) && m.objective == old(m.objective)
    {
      var (t1, t2) := pairs[idx];
      AddDifferentRow(m, v, t1, t2, numResources);
      AppendAssoc(log0, DifferentRecords(v, pairs, numResources, idx), DifferentRow(v, t1, t2, numResources));
      idx := idx + 1;
    }
  }

  lemma {:induction false} IdenticalRowSatisfied(v: Vars, t1: int, t2: int, n: nat, val: Valuation, r: nat)
    requires r < n && Satisfies(IdenticalRow(v, t1, t2, n), val)
    ensures Eval(PresenceExpr(v, t1, r), val) == Eval(PresenceExpr(v, t2, r), val)
  {
    var last := Linear([], PresenceExpr(v, t1, n - 1), Eq, PresenceExpr(v, t2, n - 1));
    SatisfiesConcat(IdenticalRow(v, t1, t2, n - 1), [last], val);
    if r < n - 1 {
      IdenticalRowSatisfied(v, t1, t2, n - 1, val, r);
    } else {
      assert [last][0] == last && Holds([last][0], val);
    }
  }

  lemma {:induction false} DifferentRowSatisfied(v: Vars, t1: int, t2: int, n: nat, val: Valuation, r: nat)
    requires r < n && Satisfies(DifferentRow(v, t1, t2, n), val)
    ensures LitTrue(PresenceLit(v, t1, r), val) ==> Eval(PresenceExpr(v, t2, r), val) == 0
  {
    var last := Linear([PresenceLit(v, t1, n - 1)], PresenceExpr(v, t2, n - 1), Eq, Num(0));
    SatisfiesConcat(DifferentRow(v, t1, t2, n - 1), [last], val);
    if r < n - 1 {
      DifferentRowSatisfied(v, t1, t2, n - 1, val, r);
    } else {
      assert [last][0] == last && Holds([last][0], val);
      assert LitTrue(PresenceLit(v, t1, r), val) ==> AllTrue([PresenceLit(v, t1, r)], val);
    }
  }

  lemma {:induction false} IdenticalRecordsSatisfied(v: Vars, pairs: seq<(nat, nat)>, numResources: nat, n: nat, val: Valuation, k: nat)
    requires k < n <= |pairs| && Satisfies(IdenticalRecords(v, pairs, numResources, n), val)
    ensures Satisfies(IdenticalRow(v, pairs[k].0, pairs[k].1, numResources), val)
  {
    SatisfiesConcat(IdenticalRecords(v, pairs, numResources, n - 1), IdenticalRow(v, pairs[n - 1].0, pairs[n - 1].1, numResources), val);
    if k < n - 1 {
      IdenticalRecordsSatisfied(v, pairs, numResources, n - 1, val, k);
    }
  }

  lemma {:induction false} DifferentRecordsSatisfied(v: Vars, pairs: seq<(nat, nat)>, numResources: nat, n: nat, val: Valuation, k: nat)
    requires k < n <= |pairs| && Satisfies(DifferentRecords(v, pairs, numResources, n), val)
    ensures Satisfies(DifferentRow(v, pairs[k].0, pairs[k].1, numResources), val)
  {
    SatisfiesConcat(DifferentRecords(v, pairs, numResources, n - 1), DifferentRow(v, pairs[n - 1].0, pairs[n - 1].1, numResources), val);
    if k < n - 1 {
      DifferentRecordsSatisfied(v, pairs, numResources, n - 1, val, k);
    }
  }

  /**
   * Identical resources: on every resource, the first task is assigned and
   * present exactly when the second is (a missing assignment counts as absent).
   */
  lemma {:induction false} IdenticalMeaning(d: SolverData, v: Vars, c: SolverConstraints, val: Valuation, k: nat, r: nat)
    requires AssignBool(v, val) && Satisfies(IdenticalAndDifferentRecords(d, v, c), val)
    requires k < |c.identicalResources| && r < |d.resources|
    ensures Assigned(v, val, c.identicalResources[k].0, r) <==> Assigned(v, val, c.identicalResources[k].1, r)
  {
    var pairs := c.identicalResources;
    SatisfiesConcat(IdenticalRecords(v, pairs, |d.resources|, |pairs|), DifferentRecords(v, c.differentResources, |d.resources|, |c.differentResources|), val);
    IdenticalRecordsSatisfied(v, pairs, |d.resources|, |pairs|, val, k);
    IdenticalRowSatisfied(v, pairs[k].0, pairs[k].1, |d.resources|, val, r);
    PresenceValue(v, val, pairs[k].0, r);
    PresenceValue(v, val, pairs[k].1, r);
  }

  /** Different resources: a resource the first task is assigned to is not one the second is assigned to. */
  lemma {:induction false} DifferentMeaning(d: SolverData, v: Vars, c: SolverConstraints, val: Valuation, k: nat, r: nat)
    requires AssignBool(v, val) && Satisfies(IdenticalAndDifferentRecords(d, v, c), val)
    requires k < |c.differentResources| && r < |d.resources|
    ensures Assigned(v, val, c.differentResources[k].0, r) ==> !Assigned(v, val, c.differentResources[k].1, r)
  {
    var pairs := c.differentResources;
    SatisfiesConcat(IdenticalRecords(v, c.identicalResources, |d.resources|, |c.identicalResources|), DifferentRecords(v, pairs, |d.resources|, |pairs|), val);
    DifferentRecordsSatisfied(v, pairs, |d.resources|, |pairs|, val, k);
    DifferentRowSatisfied(v, pairs[k].0, pairs[k].1, |d.resources|, val, r);
    PresenceValue(v, val, pairs[k].0, r);
    PresenceValue(v, val, pairs[k].1, r);
  }

  // ------------------------------------------------------- select one mode

  /** The mode's task has variables and every resource of the mode has assignment and demand variables. */
  predicate ModeKnown(v: Vars, mode: Mode)
  {
    && 0 <= mode.task < |v.tasks|
    && |mode.demands| == |mode.resources|
    && forall k :: 0 <= k < |mode.resources| ==>
         (mode.task, mode.resources[k]) in v.assign && (mode.task, mode.resources[k]) in v.demand
  }

  predicate ModesKnown(d: SolverData, v: Vars)
  {
    |v.modes| == |d.modes| && forall m :: 0 <= m < |d.modes| ==> ModeKnown(v, d.modes[m])
  }

  /** Under a selected mode: each assignment present, each demand set. */
  function ResourceRows(v: Vars, mode: Mode, lit: Lit, n: nat): seq<Record>
    requires ModeKnown(v, mode) && n <= |mode.resources|
  {
    if n == 0 then []
    else
      var key := (mode.task, mode.resources[n - 1]);
      ResourceRows(v, mode, lit, n - 1)
      + [Linear([lit], Bool(v.assign[key].present), Eq, Num(1)),
         Linear([lit], Value(v.demand[key]), Eq, Num(mode.demands[n - 1]))]
  }

  /** The records of one mode: processing time, then its resources. */
  function ModeRow(v: Vars, mode: Mode, lit: Lit): seq<Record>
    requires ModeKnown(v, mode)
  {
    [Linear([lit], Value(v.tasks[mode.task].processing), Eq, Num(mode.duration))]
    + ResourceRows(v, mode, lit, |mode.resources|)
  }

  predicate ModeIndices(d: SolverData, modes: seq<nat>)
  {
    forall i :: 0 <= i < |modes| ==> modes[i] < |d.modes|
  }

  function ModeRows(d: SolverData, v: Vars, modes: seq<nat>, n: nat): seq<Record>
    requires ModesKnown(d, v) && ModeIndices(d, modes) && n <= |modes|
  {
    if n == 0 then []
    else ModeRows(d, v, modes, n - 1) + ModeRow(v, d.modes[modes[n - 1]], v.modes[modes[n - 1]])
  }

  /** Every listed key is a key of the map. */
  predicate KeysIn(keys: seq<int>, groups: map<int, seq<nat>>)
  {
    forall i :: 0 <= i < |keys| ==> keys[i] in groups
  }

  /** `res2modes[res].append(m)` for the first `n` resources of a mode. */
  function AddToGroups(keys: seq<int>, groups: map<int, seq<nat>>, res: seq<int>, m: nat, n: nat): (r: (seq<int>, map<int, seq<nat>>))
    requires n <= |res| && KeysIn(keys, groups)
    ensures KeysIn(r.0, r.1)
  {
    if n == 0 then (keys, groups)
    else
      var (k, g) := AddToGroups(keys, groups, res, m, n - 1);
      var x := res[n - 1];
      if x in g then (k, g[x := g[x] + [m]]) else (k + [x], g[x := [m]])
  }

  /**
   * The `res2modes` dictionary of a task, built over its first `n` modes: its
   * keys in insertion order and the modes listed under each key.
   */
  function ResourceGroups(d: SolverData, modes: seq<nat>, n: nat): (r: (seq<int>, map<int, seq<nat>>))
    requires ModeIndices(d, modes) && n <= |modes|
    ensures KeysIn(r.0, r.1)
  {
    if n == 0 then ([], map[])
    else
      var (k, g) := ResourceGroups(d, modes, n - 1);
      var mode := d.modes[modes[n - 1]];
      AddToGroups(k, g, mode.resources, modes[n - 1], |mode.resources|)
  }

  lemma {:induction false} AddToGroupsMeaning(keys: seq<int>, groups: map<int, seq<nat>>, res: seq<int>, m: nat, n: nat)
    requires n <= |res| && KeysIn(keys, groups) && Elements(keys) == groups.Keys
    ensures var (k, g) := AddToGroups(keys, groups, res, m, n);
            && Elements(k) == g.Keys
            && (forall x :: x in g <==> x in groups || x in res[..n])
            && (forall x, y :: x in g ==> (y in g[x] <==> (x in groups && y in groups[x]) || (y == m && x in res[..n])))
  {
    if n > 0 {
      AddToGroupsMeaning(keys, groups, res, m, n - 1);
      var (k, g) := AddToGroups(keys, groups, res, m, n - 1);
      var x := res[n - 1];
      assert res[..n] == res[..n - 1] + [x];
      if x !in g {
        assert Elements(k + [x]) == Elements(k) + {x};
      }
    }
  }

  /**
   * `res2modes` lists a resource exactly when one of the task's modes uses
   * it, and under it exactly the modes that use it.
   */
  lemma {:induction false} ResourceGroupsMeaning(d: SolverData, modes: seq<nat>, n: nat)
    requires ModeIndices(d, modes) && n <= |modes|
    ensures var (k, g) := ResourceGroups(d, modes, n);
            && Elements(k) == g.Keys
            && (forall x :: x in g <==> exists i :: 0 <= i < n && x in d.modes[modes[i]].resources)
            && (forall x, y :: x in g ==> (y in g[x] <==> exists i :: 0 <= i < n && modes[i] == y && x in d.modes[modes[i]].resources))
  {
    if n > 0 {
      ResourceGroupsMeaning(d, modes, n - 1);
      var (k, g) := ResourceGroups(d, modes, n - 1);
      var mode := d.modes[modes[n - 1]];
      AddToGroupsMeaning(k, g, mode.resources, modes[n - 1], |mode.resources|);
      assert mode.resources[..|mode.resources|] == mode.resources;
    }
  }

  /** `presence <= sum(mode_vars)` for the modes of a task that use resource `r`. */
  function GroupRow(v: Vars, t: int, r: int, modes: seq<nat>): Record
  {
    Linear([], PresenceExpr(v, t, r), Le, Sum(Bools(ModeLitsOf(v, modes))))
  }

  function GroupRows(v: Vars, t: int, keys: seq<int>, groups: map<int, seq<nat>>, n: nat): seq<Record>
    requires n <= |keys| && KeysIn(keys, groups)
  {
    if n == 0 then [] else GroupRows(v, t, keys, groups, n - 1) + [GroupRow(v, t, keys[n - 1], groups[keys[n - 1]])]
  }

  /** `assign_var.present <= task_var.present`. */
  function PresenceRow(v: Vars, t: nat, r: int): Record
    requires t < |v.tasks|
  {
    Linear([], PresenceExpr(v, t, r), Le, Bool(v.tasks[t].present))
  }

  function PresenceRows(v: Vars, t: nat, res: seq<int>, n: nat): seq<Record>
    requires n <= |res| && t < |v.tasks|
  {
    if n == 0 then [] else PresenceRows(v, t, res, n - 1) + [PresenceRow(v, t, res[n - 1])]
  }

  /** The resources of task `t` in first-use order (the keys of `res2modes`). */
  function TaskResources(d: SolverData, t: int): seq<int>
  {
    ResourceGroups(d, Task2Modes(d, t), |Task2Modes(d, t)|).0
  }

  predicate SelectReady(d: SolverData, v: Vars)
  {
    |v.tasks| == |d.tasks| && ModesKnown(d, v)
  }

  /**
   * All records `_select_one_mode` emits for tasks `0 .. n-1`; each task
   * adds its mode count, its mode rows, its `res2modes` rows and its
   * presence rows.
   */
  function SelectRecords(d: SolverData, v: Vars, n: nat): seq<Record>
    requires SelectReady(d, v) && n <= |d.tasks|
  {
    if n == 0 then []
    else
      var t := n - 1;
      var modes := Task2Modes(d, t);
      var groups := ResourceGroups(d, modes, |modes|);
      SelectRecords(d, v, t)
      + ([CountRow(v, t, modes)]
         + ModeRows(d, v, modes, |modes|)
         + GroupRows(v, t, groups.0, groups.1, |groups.0|)
         + PresenceRows(v, t, groups.0, |groups.0|))
  }

  /** `sum(mode_vars) == task_var.present`. */
  function CountRow(v: Vars, t: nat, modes: seq<nat>): Record
    requires t < |v.tasks|
  {
    Linear([], Sum(Bools(ModeLitsOf(v, modes))), Eq, Bool(v.tasks[t].present))
  }

  /** `_select_one_mode`. */
  method SelectOneMode(m: Model, d: SolverData, v: Vars)
    requires SelectReady(d, v)
    modifies m
    ensures m.log == old(m.log) + SelectRecords(d, v, |d.tasks|)
    ensures m.next == old(m.next) && m.hints == old(m.hints) && m.objective == old(m.objective)
  {
    ghost var log0 := m.log;
    var t := 0;
    while t < |d.tasks|
      invariant t <= |d.tasks|
      invariant m.log == log0 + SelectRecords(d, v, t)
      invariant m.next == old(m.next) && m.hints == old(m.hints) && m.objective == old(m.objective)
    {
      SelectTaskMode(m, d, v, t, log0);
      t := t + 1;
    }
  }

  /** The body of `_select_one_mode` for task `t`, appended after the records of the earlier tasks. */
  method SelectTaskMode(m: Model, d: SolverData, v: Vars, t: nat, ghost log0: seq<Record>)
    requires SelectReady(d, v) && t < |d.tasks|
    requires m.log == log0 + SelectRecords(d, v, t)
    modifies m
    ensures m.log == log0 + SelectRecords(d, v, t + 1)
    ensures m.next == old(m.next) && m.hints == old(m.hints) && m.objective == old(m.objective)
  {
    var modes := Task2Modes(d, t);
    ghost var prev := SelectRecords(d, v, t);
    ghost var grouped := ResourceGroups(d, modes, |modes|);
    ghost var a := [CountRow(v, t, modes)];
    ghost var b := ModeRows(d, v, modes, |modes|);
    ghost var c := GroupRows(v, t, grouped.0, grouped.1, |grouped.0|);
    ghost var e := PresenceRows(v, t, grouped.0, |grouped.0|);
    assert SelectRecords(d, v, t + 1) == prev + (a + b + c + e);
    ghost var x := m.log;
    m.Add(CountRow(v, t, modes));
    AddModeRows(m, d, v, modes);
    AppendAssoc(x, a, b);
    var keys, groups := GroupModes(d, modes);
    AddGroupRows(m, v, t, keys, groups);
    AppendAssoc(x, a + b, c);
    AddPresenceRows(m, v, t, keys);
    AppendAssoc(x, a + b + c, e);
    AppendAssoc(log0, prev, a + b + c + e);
  }

  method AddModeRows(m: Model, d: SolverData, v: Vars, modes: seq<nat>)
    requires ModesKnown(d, v) && ModeIndices(d, modes)
    modifies m
    ensures m.log == old(m.log) + ModeRows(d, v, modes, |modes|)
    ensures m.next == old(m.next) && m.hints == old(m.hints) && m.objective == old(m.objective)
  {
    ghost var log0 := m.log;
    var i := 0;
    while i < |modes|
      invariant i <= |modes|
      invariant m.log == log0 + ModeRows(d, v, modes, i)
      invariant m.next == old(m.next) && m.hints == old(m.hints) && m.objective == old(m.objective)
    {
      var mode := d.modes[modes[i]];
      var modeVar := v.modes[modes[i]];
      ghost var x := m.log;
      m.Add(Linear([modeVar], Value(v.tasks[mode.task].processing), Eq, Num(mode.duration)));
      AddResourceRows(m, v, mode, modeVar);
      AppendAssoc(x, [Linear([modeVar], Value(v.tasks[mode.task].processing), Eq, Num(mode.duration))],
                  ResourceRows(v, mode, modeVar, |mode.resources|));
      AppendAssoc(log0, ModeRows(d, v, modes, i), ModeRow(v, mode, modeVar));
      i := i + 1;
    }
  }

  method AddResourceRows(m: Model, v: Vars, mode: Mode, modeVar: Lit)
    requires ModeKnown(v, mode)
    modifies m
    ensures m.log == old(m.log) + ResourceRows(v, mode, modeVar, |mode.resources|)
    ensures m.next == old(m.next) && m.hints == old(m.hints) && m.objective == old(m.objective)
  {
    ghost var log0 := m.log;
    var k := 0;
    while k < |mode.resources|
      invariant k <= |mode.resources|
      invariant m.log == log0 + ResourceRows(v, mode, modeVar, k)
      invariant m.next == old(m.next) && m.hints == old(m.hints) && m.objective == old(m.objective)
    {
      var key := (mode.task, mode.resources[k]);
      ghost var x := m.log;
      m.Add(Linear([modeVar], Bool(v.assign[key].present), Eq, Num(1)));
      m.Add(Linear([modeVar], Value(v.demand[key]), Eq, Num(mode.demands[k])));
      AppendAssoc(x, [Linear([modeVar], Bool(v.assign[key].present), Eq, Num(1))],
                  [Linear([modeVar], Value(v.demand[key]), Eq, Num(mode.demands[k]))]);
      AppendAssoc(log0, ResourceRows(v, mode, modeVar, k),
                  [Linear([modeVar], Bool(v.assign[key].present), Eq, Num(1)),
                   Linear([modeVar], Value(v.demand[key]), Eq, Num(mode.demands[k]))]);
      k := k + 1;
    }
  }

  /** The `res2modes` loop of `_select_one_mode`. */
  method GroupModes(d: SolverData, modes: seq<nat>) returns (keys: seq<int>, groups: map<int, seq<nat>>)
    requires ModeIndices(d, modes)
    ensures (keys, groups) == ResourceGroups(d, modes, |modes|)
  {
    keys, groups := [], map[];
    var i := 0;
    while i < |modes|
      invariant i <= |modes|
      invariant (keys, groups) == ResourceGroups(d, modes, i)
    {
      keys, groups := GroupMode(keys, groups, d.modes[modes[i]].resources, modes[i]);
      i := i + 1;
    }
  }

  method GroupMode(keys0: seq<int>, groups0: map<int, seq<nat>>, res: seq<int>, mode: nat) returns (keys: seq<int>, groups: map<int, seq<nat>>)
    requires KeysIn(keys0, groups0)
    ensures (keys, groups) == AddToGroups(keys0, groups0, res, mode, |res|)
  {
    keys, groups := keys0, groups0;
    var k := 0;
    while k < |res|
      invariant k <= |res|
      invariant (keys, groups) == AddToGroups(keys0, groups0, res, mode, k)
    {
      var x := res[k];
      if x in groups {
        groups := groups[x := groups[x] + [mode]];
      } else {
        keys := keys + [x];
        groups := groups[x := [mode]];
      }
      k := k + 1;
    }
  }

  method AddGroupRows(m: Model, v: Vars, t: int, keys: seq<int>, groups: map<int, seq<nat>>)
    requires KeysIn(keys, groups)
    modifies m
    ensures m.log == old(m.log) + GroupRows(v, t, keys, groups, |keys|)
    ensures m.next == old(m.next) && m.hints == old(m.hints) && m.objective == old(m.objective)
  {
    ghost var log0 := m.log;
    var i := 0;
    while i < |keys|
      invariant i <= |keys|
      invariant m.log == log0 + GroupRows(v, t, keys, groups, i)
      invariant m.next == old(m.next) && m.hints == old(m.hints) && m.objective == old(m.objective)
    {
      m.Add(GroupRow(v, t, keys[i], groups[keys[i]]));
      AppendAssoc(log0, GroupRows(v, t, keys, groups, i), [GroupRow(v, t, keys[i], groups[keys[i]])]);
      i := i + 1;
    }
  }

  method AddPresenceRows(m: Model, v: Vars, t: nat, res: seq<int>)
    requires t < |v.tasks|
    modifies m
    ensures m.log == old(m.log) + PresenceRows(v, t, res, |res|)
    ensures m.next == old(m.next) && m.hints == old(m.hints) && m.objective == old(m.objective)
  {
    ghost var log0 := m.log;
    var i := 0;
    while i < |res|
      invariant i <= |res|
      invariant m.log == log0 + PresenceRows(v, t, res, i)
      invariant m.next == old(m.next) && m.hints == old(m.hints) && m.objective == old(m.objective)
    {
      m.Add(PresenceRow(v, t, res[i]));
      AppendAssoc(log0, PresenceRows(v, t, res, i), [PresenceRow(v, t, res[i])]);
      i := i + 1;
    }
  }

  /** The records `_select_one_mode` emits for task `t`. */
  function TaskBlock(d: SolverData, v: Vars, t: nat): seq<Record>
    requires SelectReady(d, v) && t < |d.tasks|
  {
    var modes := Task2Modes(d, t);
    var groups := ResourceGroups(d, modes, |modes|);
    [CountRow(v, t, modes)]
    + ModeRows(d, v, modes, |modes|)
    + GroupRows(v, t, groups.0, groups.1, |groups.0|)
    + PresenceRows(v, t, groups.0, |groups.0|)
  }

  lemma {:induction false} SelectRecordsStep(d: SolverData, v: Vars, n: nat)
    requires SelectReady(d, v) && 0 < n <= |d.tasks|
    ensures SelectRecords(d, v, n) == SelectRecords(d, v, n - 1) + TaskBlock(d, v, n - 1)
  {
  }

  /** The blocks of tasks `0 .. n-1`. */
  function Blocks(d: SolverData, v: Vars, n: nat): (r: seq<seq<Record>>)
    requires SelectReady(d, v) && n <= |d.tasks|
    ensures |r| == n && forall t :: 0 <= t < n ==> r[t] == TaskBlock(d, v, t)
  {
    seq(n, t requires 0 <= t < n => TaskBlock(d, v, t))
  }

  lemma {:induction false} BlocksPrefix(d: SolverData, v: Vars, n: nat)
    requires SelectReady(d, v) && 0 < n <= |d.tasks|
    ensures Blocks(d, v, n) == Blocks(d, v, n - 1) + [TaskBlock(d, v, n - 1)]
  {
    assert Blocks(d, v, n)[..n - 1] == Blocks(d, v, n - 1);
  }

  /** The records of the first `n` tasks are their blocks laid end to end. */
  lemma {:induction false} SelectRecordsFlat(d: SolverData, v: Vars, n: nat)
    requires SelectReady(d, v) && n <= |d.tasks|
    ensures SelectRecords(d, v, n) == Flatten(Blocks(d, v, n))
  {
    if n > 0 {
      SelectRecordsFlat(d, v, n - 1);
      SelectRecordsStep(d, v, n);
      BlocksPrefix(d, v, n);
      FlattenStep(Blocks(d, v, n - 1), TaskBlock(d, v, n - 1));
    }
  }

  /** A record of task `t`'s block is a record of `_select_one_mode`, hence holds. */
  lemma {:induction false} SelectRecordHolds(d: SolverData, v: Vars, val: Valuation, t: nat, r: Record)
    requires SelectReady(d, v) && t < |d.tasks| && r in TaskBlock(d, v, t)
    requires Satisfies(SelectRecords(d, v, |d.tasks|), val)
    ensures Holds(r, val)
  {
    SelectRecordsFlat(d, v, |d.tasks|);
    FlattenMember(Blocks(d, v, |d.tasks|), t, r);
    SatisfiesMember(SelectRecords(d, v, |d.tasks|), r, val);
  }

  lemma {:induction false} ResourceRowsContain(v: Vars, mode: Mode, lit: Lit, n: nat, k: nat)
    requires ModeKnown(v, mode) && k < n <= |mode.resources|
    ensures var key := (mode.task, mode.resources[k]);
            && Linear([lit], Bool(v.assign[key].present), Eq, Num(1)) in ResourceRows(v, mode, lit, n)
            && Linear([lit], Value(v.demand[key]), Eq, Num(mode.demands[k])) in ResourceRows(v, mode, lit, n)
  {
    if k < n - 1 {
      ResourceRowsContain(v, mode, lit, n - 1, k);
    }
  }

  lemma {:induction false} ModeRowsContain(d: SolverData, v: Vars, modes: seq<nat>, n: nat, i: nat, r: Record)
    requires ModesKnown(d, v) && ModeIndices(d, modes) && i < n <= |modes|
    requires r in ModeRow(v, d.modes[modes[i]], v.modes[modes[i]])
    ensures r in ModeRows(d, v, modes, n)
  {
    ModeRowsStep(d, v, modes, n);
    if i < n - 1 {
      ModeRowsContain(d, v, modes, n - 1, i, r);
    }
  }

  lemma {:induction false} ModeRowsStep(d: SolverData, v: Vars, modes: seq<nat>, n: nat)
    requires ModesKnown(d, v) && ModeIndices(d, modes) && 0 < n <= |modes|
    ensures ModeRows(d, v, modes, n) == ModeRows(d, v, modes, n - 1) + ModeRow(v, d.modes[modes[n - 1]], v.modes[modes[n - 1]])
  {
  }

  lemma {:induction false} GroupRowsContain(v: Vars, t: int, keys: seq<int>, groups: map<int, seq<nat>>, n: nat, i: nat)
    requires i < n <= |keys| && KeysIn(keys, groups)
    ensures GroupRow(v, t, keys[i], groups[keys[i]]) in GroupRows(v, t, keys, groups, n)
  {
    if i < n - 1 {
      GroupRowsContain(v, t, keys, groups, n - 1, i);
    }
  }

  lemma {:induction false} PresenceRowsContain(v: Vars, t: nat, res: seq<int>, n: nat, i: nat)
    requires i < n <= |res| && t < |v.tasks|
    ensures PresenceRow(v, t, res[i]) in PresenceRows(v, t, res, n)
  {
    if i < n - 1 {
      PresenceRowsContain(v, t, res, n - 1, i);
    }
  }

  /** The mode count of task `t` holds. */
  lemma {:induction false} CountRowHolds(d: SolverData, v: Vars, val: Valuation, t: nat)
    requires SelectReady(d, v) && t < |d.tasks| && Satisfies(SelectRecords(d, v, |d.tasks|), val)
    ensures Holds(CountRow(v, t, Task2Modes(d, t)), val)
  {
    SelectRecordHolds(d, v, val, t, CountRow(v, t, Task2Modes(d, t)));
  }

  /** Every record of the rows of mode `m` holds. */
  lemma {:induction false} ModeRecordHolds(d: SolverData, v: Vars, val: Valuation, m: nat, r: Record)
    requires SelectReady(d, v) && m < |d.modes| && 0 <= d.modes[m].task < |d.tasks|
    requires Satisfies(SelectRecords(d, v, |d.tasks|), val)
    requires r in ModeRow(v, d.modes[m], v.modes[m])
    ensures Holds(r, val)
  {
    var t := d.modes[m].task;
    var modes := Task2Modes(d, t);
    assert m in modes;
    var i :| 0 <= i < |modes| && modes[i] == m;
    ModeRowsContain(d, v, modes, |modes|, i, r);
    SelectRecordHolds(d, v, val, t, r);
  }

  /** The `res2modes` row of the `j`-th resource of task `t` holds. */
  lemma {:induction false} GroupRowHolds(d: SolverData, v: Vars, val: Valuation, t: nat, keys: seq<int>, groups: map<int, seq<nat>>, j: nat)
    requires SelectReady(d, v) && t < |d.tasks| && Satisfies(SelectRecords(d, v, |d.tasks|), val)
    requires (keys, groups) == ResourceGroups(d, Task2Modes(d, t), |Task2Modes(d, t)|) && j < |keys|
    ensures Holds(GroupRow(v, t, keys[j], groups[keys[j]]), val)
  {
    GroupRowsContain(v, t, keys, groups, |keys|, j);
    SelectRecordHolds(d, v, val, t, GroupRow(v, t, keys[j], groups[keys[j]]));
  }

  /** The presence row of the `j`-th resource of task `t` holds. */
  lemma {:induction false} PresenceRowHolds(d: SolverData, v: Vars, val: Valuation, t: nat, keys: seq<int>, j: nat)
    requires SelectReady(d, v) && t < |d.tasks| && Satisfies(SelectRecords(d, v, |d.tasks|), val)
    requires keys == TaskResources(d, t) && j < |keys|
    ensures Holds(PresenceRow(v, t, keys[j]), val)
  {
    PresenceRowsContain(v, t, keys, |keys|, j);
    SelectRecordHolds(d, v, val, t, PresenceRow(v, t, keys[j]));
  }

  /** The number of selected modes of a task is its presence: one if present, none if absent. */
  lemma {:induction false} SelectCount(d: SolverData, v: Vars, val: Valuation, t: nat)
    requires SelectReady(d, v) && t < |d.tasks| && TasksBool(v, val) && ModesBool(v, val)
    requires Satisfies(SelectRecords(d, v, |d.tasks|), val)
    ensures CountTrue(ModeLitsOf(v, Task2Modes(d, t)), val) == if LitTrue(v.tasks[t].present, val) then 1 else 0
  {
    var modes := Task2Modes(d, t);
    CountRowHolds(d, v, val, t);
    ModeLitsBool(v, modes, val);
    SumOfLiterals(ModeLitsOf(v, modes), val);
    BoolValue(v.tasks[t].present, val);
  }

  /**
   * A present task has exactly one selected mode among its modes; an absent
   * task has none.
   */
  lemma {:induction false} SelectOneModeMeaning(d: SolverData, v: Vars, val: Valuation, t: nat)
    requires SelectReady(d, v) && t < |d.tasks| && TasksBool(v, val) && ModesBool(v, val)
    requires Satisfies(SelectRecords(d, v, |d.tasks|), val)
    ensures LitTrue(v.tasks[t].present, val) ==>
              exists m :: 0 <= m < |d.modes| && d.modes[m].task == t && LitTrue(v.modes[m], val) &&
                forall m2 :: 0 <= m2 < |d.modes| && d.modes[m2].task == t && m2 != m ==> !LitTrue(v.modes[m2], val)
    ensures !LitTrue(v.tasks[t].present, val) ==>
              forall m :: 0 <= m < |d.modes| && d.modes[m].task == t ==> !LitTrue(v.modes[m], val)
  {
    var lits := ModeLitsOf(v, Task2Modes(d, t));
    SelectCount(d, v, val, t);
    if LitTrue(v.tasks[t].present, val) {
      CountTrueOne(lits, val);
      var i :| 0 <= i < |lits| && LitTrue(lits[i], val) &&
               forall j :: 0 <= j < |lits| && j != i ==> !LitTrue(lits[j], val);
      OnlySelectedMode(d, v, val, t, i);
    } else {
      CountTrueZero(lits, val);
      NoSelectedMode(d, v, val, t);
    }
  }

  /** Mode `m` of task `t` sits in `task2modes(t)`, and its literal in the task's mode literals. */
  lemma {:induction false} ModeLitIndex(d: SolverData, v: Vars, t: int, m: nat) returns (j: nat)
    requires ModesKnown(d, v) && m < |d.modes| && d.modes[m].task == t
    ensures j < |Task2Modes(d, t)| && Task2Modes(d, t)[j] == m
    ensures ModeLitsOf(v, Task2Modes(d, t))[j] == v.modes[m]
  {
    var modes := Task2Modes(d, t);
    assert m in modes;
    j :| 0 <= j < |modes| && modes[j] == m;
  }

  /** When only the `i`-th mode literal of task `t` holds, its mode is the one selected mode. */
  lemma {:induction false} OnlySelectedMode(d: SolverData, v: Vars, val: Valuation, t: int, i: nat)
    requires ModesKnown(d, v)
    requires var lits := ModeLitsOf(v, Task2Modes(d, t));
             && i < |lits| && LitTrue(lits[i], val)
             && forall j :: 0 <= j < |lits| && j != i ==> !LitTrue(lits[j], val)
    ensures exists m :: 0 <= m < |d.modes| && d.modes[m].task == t && LitTrue(v.modes[m], val) &&
              forall m2 :: 0 <= m2 < |d.modes| && d.modes[m2].task == t && m2 != m ==> !LitTrue(v.modes[m2], val)
  {
    var modes := Task2Modes(d, t);
    var lits := ModeLitsOf(v, modes);
    var m := modes[i];
    assert lits[i] == v.modes[m];
    forall m2 | 0 <= m2 < |d.modes| && d.modes[m2].task == t && m2 != m
      ensures !LitTrue(v.modes[m2], val)
    {
      var j := ModeLitIndex(d, v, t, m2);
    }
  }

  /** When no mode literal of task `t` holds, no mode of `t` is selected. */
  lemma {:induction false} NoSelectedMode(d: SolverData, v: Vars, val: Valuation, t: int)
    requires ModesKnown(d, v) && !AnyTrue(ModeLitsOf(v, Task2Modes(d, t)), val)
    ensures forall m :: 0 <= m < |d.modes| && d.modes[m].task == t ==> !LitTrue(v.modes[m], val)
  {
    forall m | 0 <= m < |d.modes| && d.modes[m].task == t
      ensures !LitTrue(v.modes[m], val)
    {
      var j := ModeLitIndex(d, v, t, m);
    }
  }

  /**
   * A selected mode fixes its task's processing time to the mode's duration,
   * makes each of its resource assignments present and sets each demand.
   */
  lemma {:induction false} SelectedModeMeaning(d: SolverData, v: Vars, val: Valuation, m: nat)
    requires SelectReady(d, v) && m < |d.modes| && AssignBool(v, val)
    requires Satisfies(SelectRecords(d, v, |d.tasks|), val) && LitTrue(v.modes[m], val)
    requires 0 <= d.modes[m].task < |d.tasks|
    ensures var mode := d.modes[m];
            && val(v.tasks[mode.task].processing) == mode.duration
            && forall k :: 0 <= k < |mode.resources| ==>
                 Assigned(v, val, mode.task, mode.resources[k]) && val(v.demand[(mode.task, mode.resources[k])]) == mode.demands[k]
  {
    var mode := d.modes[m];
    var t := mode.task;
    var lit := v.modes[m];
    assert AllTrue([lit], val);
    var proc := Linear([lit], Value(v.tasks[t].processing), Eq, Num(mode.duration));
    assert proc in ModeRow(v, mode, lit);
    ModeRecordHolds(d, v, val, m, proc);
    forall k | 0 <= k < |mode.resources|
      ensures Assigned(v, val, t, mode.resources[k]) && val(v.demand[(t, mode.resources[k])]) == mode.demands[k]
    {
      var key := (t, mode.resources[k]);
      var r1 := Linear([lit], Bool(v.assign[key].present), Eq, Num(1));
      var r2 := Linear([lit], Value(v.demand[key]), Eq, Num(mode.demands[k]));
      ResourceRowsContain(v, mode, lit, |mode.resources|, k);
      ModeRecordHolds(d, v, val, m, r1);
      ModeRecordHolds(d, v, val, m, r2);
      BoolValue(v.assign[key].present, val);
    }
  }

  /** A resource some mode of task `t` uses is a key of its `res2modes`, at some position. */
  lemma {:induction false} GroupKey(d: SolverData, t: nat, r: int, m0: nat) returns (j: nat)
    requires m0 < |d.modes| && d.modes[m0].task == t && r in d.modes[m0].resources
    ensures var (keys, groups) := ResourceGroups(d, Task2Modes(d, t), |Task2Modes(d, t)|);
            j < |keys| && keys[j] == r
  {
    var modes := Task2Modes(d, t);
    var (keys, groups) := ResourceGroups(d, modes, |modes|);
    ResourceGroupsMeaning(d, modes, |modes|);
    assert m0 in modes;
    var i0 :| 0 <= i0 < |modes| && modes[i0] == m0;
    assert r in groups;
    assert r in Elements(keys);
    j :| 0 <= j < |keys| && keys[j] == r;
  }

  /** A mode listed under resource `r` in the `res2modes` of task `t` is a mode of `t` that uses `r`. */
  lemma {:induction false} GroupMember(d: SolverData, t: nat, groups: map<int, seq<nat>>, r: int, y: nat)
    requires groups == ResourceGroups(d, Task2Modes(d, t), |Task2Modes(d, t)|).1
    requires r in groups && y in groups[r]
    ensures y < |d.modes| && d.modes[y].task == t && r in d.modes[y].resources
  {
    var modes := Task2Modes(d, t);
    ResourceGroupsMeaning(d, modes, |modes|);
    var iy :| 0 <= iy < |modes| && modes[iy] == y && r in d.modes[modes[iy]].resources;
  }

  /** A present assignment of a task to one of its resources needs the task to be present. */
  lemma {:induction false} AssignedPresent(d: SolverData, v: Vars, val: Valuation, t: nat, r: int, m0: nat)
    requires SelectReady(d, v) && t < |d.tasks| && TasksBool(v, val) && AssignBool(v, val)
    requires Satisfies(SelectRecords(d, v, |d.tasks|), val)
    requires m0 < |d.modes| && d.modes[m0].task == t && r in d.modes[m0].resources
    requires Assigned(v, val, t, r)
    ensures LitTrue(v.tasks[t].present, val)
  {
    var j := GroupKey(d, t, r, m0);
    PresenceValue(v, val, t, r);
    PresenceRowHolds(d, v, val, t, TaskResources(d, t), j);
    BoolValue(v.tasks[t].present, val);
  }

  /**
   * A present assignment of a task to one of its resources needs one of the
   * task's selected modes to use that resource.
   */
  lemma {:induction false} AssignedSelected(d: SolverData, v: Vars, val: Valuation, t: nat, r: int, m0: nat)
    requires SelectReady(d, v) && t < |d.tasks| && ModesBool(v, val) && AssignBool(v, val)
    requires Satisfies(SelectRecords(d, v, |d.tasks|), val)
    requires m0 < |d.modes| && d.modes[m0].task == t && r in d.modes[m0].resources
    requires Assigned(v, val, t, r)
    ensures exists m :: 0 <= m < |d.modes| && d.modes[m].task == t && r in d.modes[m].resources && LitTrue(v.modes[m], val)
  {
    var modes := Task2Modes(d, t);
    var (keys, groups) := ResourceGroups(d, modes, |modes|);
    var j := GroupKey(d, t, r, m0);
    GroupRowHolds(d, v, val, t, keys, groups, j);
    var y := GroupRowTrueMode(v, val, t, r, groups[r]);
    GroupMember(d, t, groups, r, y);
  }

  /** A holding group row of a present assignment has one of the group's modes selected. */
  lemma {:induction false} GroupRowTrueMode(v: Vars, val: Valuation, t: nat, r: int, group: seq<nat>) returns (y: nat)
    requires ModesBool(v, val) && AssignBool(v, val) && Assigned(v, val, t, r)
    requires Holds(GroupRow(v, t, r, group), val)
    ensures y in group && y < |v.modes| && LitTrue(v.modes[y], val)
  {
    PresenceValue(v, val, t, r);
    var lits := ModeLitsOf(v, group);
    ModeLitsBool(v, group, val);
    SumOfLiterals(lits, val);
    CountTrueZero(lits, val);
    var q :| 0 <= q < |lits| && LitTrue(lits[q], val);
    y := group[q];
  }

  // ------------------------------------------------ machines and capacities

  /** Every listed index is a resource index. */
  predicate IdcsIn(d: SolverData, idcs: seq<nat>)
  {
    forall k :: 0 <= k < |idcs| ==> idcs[k] < |d.resources|
  }

  function NoOverlapRecords(v: Vars, idcs: seq<nat>, n: nat): seq<Record>
    requires n <= |idcs|
  {
    if n == 0 then [] else NoOverlapRecords(v, idcs, n - 1) + [NoOverlap(v.resAssign(idcs[n - 1]))]
  }

  /** `_machines_no_overlap`. */
  method MachinesNoOverlap(m: Model, d: SolverData, v: Vars)
    modifies m
    ensures m.log == old(m.log) + NoOverlapRecords(v, MachineIdcs(d), |MachineIdcs(d)|)
    ensures m.next == old(m.next) && m.hints == old(m.hints) && m.objective == old(m.objective)
  {
    AddNoOverlaps(m, v, MachineIdcs(d));
  }

  /** One no-overlap record per listed machine, in list order. */
  method AddNoOverlaps(m: Model, v: Vars, idcs: seq<nat>)
    modifies m
    ensures m.log == old(m.log) + NoOverlapRecords(v, idcs, |idcs|)
    ensures m.next == old(m.next) && m.hints == old(m.hints) && m.objective == old(m.objective)
  {
    ghost var log0 := m.log;
    var k := 0;
    while k < |idcs|
      invariant k <= |idcs|
      invariant m.log == log0 + NoOverlapRecords(v, idcs, k)
      invariant m.next == old(m.next) && m.hints == old(m.hints) && m.objective == old(m.objective)
    {
      m.Add(NoOverlap(v.resAssign(idcs[k])));
      AppendAssoc(log0, NoOverlapRecords(v, idcs, k), [NoOverlap(v.resAssign(idcs[k]))]);
      k := k + 1;
    }
  }

  lemma {:induction false} NoOverlapRecordsContain(v: Vars, idcs: seq<nat>, n: nat, k: nat)
    requires k < n <= |idcs|
    ensures NoOverlap(v.resAssign(idcs[k])) in NoOverlapRecords(v, idcs, n)
  {
    if k < n - 1 {
      NoOverlapRecordsContain(v, idcs, n - 1, k);
    }
  }

  /** Two present assignments to the same machine do not overlap in time. */
  lemma {:induction false} MachinesNoOverlapMeaning(d: SolverData, v: Vars, val: Valuation, r: nat, i: nat, j: nat)
    requires Satisfies(NoOverlapRecords(v, MachineIdcs(d), |MachineIdcs(d)|), val)
    requires IsMachine(d, r) && i < |v.resAssign(r)| && j < |v.resAssign(r)| && i != j
    requires Present(v.resAssign(r)[i], val) && Present(v.resAssign(r)[j], val)
    ensures var ivs := v.resAssign(r);
            Eval(ivs[i].end, val) <= Eval(ivs[j].start, val) || Eval(ivs[j].end, val) <= Eval(ivs[i].start, val)
  {
    var idcs := MachineIdcs(d);
    var k :| 0 <= k < |idcs| && idcs[k] == r;
    NoOverlapRecordsContain(v, idcs, |idcs|, k);
    SatisfiesMember(NoOverlapRecords(v, idcs, |idcs|), NoOverlap(v.resAssign(r)), val);
  }

  /** `add_cumulative(intervals, demands, capacity)` for resource `r`. */
  function CumulativeRow(d: SolverData, v: Vars, r: nat): Record
    requires r < |d.resources|
  {
    Cumulative(v.resAssign(r), v.resDemand(r), Num(d.resources[r].Capacity()))
  }

  function CumulativeRecords(d: SolverData, v: Vars, idcs: seq<nat>, n: nat): seq<Record>
    requires n <= |idcs| && IdcsIn(d, idcs)
  {
    if n == 0 then [] else CumulativeRecords(d, v, idcs, n - 1) + [CumulativeRow(d, v, idcs[n - 1])]
  }

  /** `_renewable_capacity`. */
  method RenewableCapacity(m: Model, d: SolverData, v: Vars)
    modifies m
    ensures IdcsIn(d, RenewableIdcs(d))
    ensures m.log == old(m.log) + CumulativeRecords(d, v, RenewableIdcs(d), |RenewableIdcs(d)|)
    ensures m.next == old(m.next) && m.hints == old(m.hints) && m.objective == old(m.objective)
  {
    ghost var log0 := m.log;
    var idcs := RenewableIdcs(d);
    var k := 0;
    while k < |idcs|
      invariant k <= |idcs|
      invariant m.log == log0 + CumulativeRecords(d, v, idcs, k)
      invariant m.next == old(m.next) && m.hints == old(m.hints) && m.objective == old(m.objective)
    {
      var idx := idcs[k];
      m.Add(Cumulative(v.resAssign(idx), v.resDemand(idx), Num(d.resources[idx].Capacity())));
      AppendAssoc(log0, CumulativeRecords(d, v, idcs, k), [CumulativeRow(d, v, idx)]);
      k := k + 1;
    }
  }

  lemma {:induction false} CumulativeRecordsContain(d: SolverData, v: Vars, idcs: seq<nat>, n: nat, k: nat)
    requires k < n <= |idcs| && IdcsIn(d, idcs)
    ensures CumulativeRow(d, v, idcs[k]) in CumulativeRecords(d, v, idcs, n)
  {
    if k < n - 1 {
      CumulativeRecordsContain(d, v, idcs, n - 1, k);
    }
  }

  /**
   * At every time, the summed demand of the present assignments to a
   * renewable resource that run then is at most its capacity.
   */
  lemma {:induction false} RenewableCapacityMeaning(d: SolverData, v: Vars, val: Valuation, r: nat, t: int)
    requires IdcsIn(d, RenewableIdcs(d))
    requires Satisfies(CumulativeRecords(d, v, RenewableIdcs(d), |RenewableIdcs(d)|), val)
    requires IsRenewable(d, r)
    ensures |v.resAssign(r)| == |v.resDemand(r)|
    ensures Load(v.resAssign(r), v.resDemand(r), t, val) <= d.resources[r].capacity
  {
    var idcs := RenewableIdcs(d);
    var k :| 0 <= k < |idcs| && idcs[k] == r;
    CumulativeRecordsContain(d, v, idcs, |idcs|, k);
    SatisfiesMember(CumulativeRecords(d, v, idcs, |idcs|), CumulativeRow(d, v, r), val);
  }

  /** `add(sum(demands) <= capacity)` for resource `r`. */
  function TotalDemandRow(d: SolverData, v: Vars, r: nat): Record
    requires r < |d.resources|
  {
    Linear([], Sum(v.resDemand(r)), Le, Num(d.resources[r].Capacity()))
  }

  function TotalDemandRecords(d: SolverData, v: Vars, idcs: seq<nat>, n: nat): seq<Record>
    requires n <= |idcs| && IdcsIn(d, idcs)
  {
    if n == 0 then [] else TotalDemandRecords(d, v, idcs, n - 1) + [TotalDemandRow(d, v, idcs[n - 1])]
  }

  /** `_non_renewable_capacity`. */
  method NonRenewableCapacity(m: Model, d: SolverData, v: Vars)
    modifies m
    ensures IdcsIn(d, NonRenewableIdcs(d))
    ensures m.log == old(m.log) + TotalDemandRecords(d, v, NonRenewableIdcs(d), |NonRenewableIdcs(d)|)
    ensures m.next == old(m.next) && m.hints == old(m.hints) && m.objective == old(m.objective)
  {
    ghost var log0 := m.log;
    var idcs := NonRenewableIdcs(d);
    var k := 0;
    while k < |idcs|
      invariant k <= |idcs|
      invariant m.log == log0 + TotalDemandRecords(d, v, idcs, k)
      invariant m.next == old(m.next) && m.hints == old(m.hints) && m.objective == old(m.objective)
    {
      var idx := idcs[k];
      m.Add(Linear([], Sum(v.resDemand(idx)), Le, Num(d.resources[idx].Capacity())));
      AppendAssoc(log0, TotalDemandRecords(d, v, idcs, k), [TotalDemandRow(d, v, idx)]);
      k := k + 1;
    }
  }

  lemma {:induction false} TotalDemandRecordsContain(d: SolverData, v: Vars, idcs: seq<nat>, n: nat, k: nat)
    requires k < n <= |idcs| && IdcsIn(d, idcs)
    ensures TotalDemandRow(d, v, idcs[k]) in TotalDemandRecords(d, v, idcs, n)
  {
    if k < n - 1 {
      TotalDemandRecordsContain(d, v, idcs, n - 1, k);
    }
  }

  /** The summed demand on a non-renewable resource, over the whole horizon, is at most its capacity. */
  lemma {:induction false} NonRenewableCapacityMeaning(d: SolverData, v: Vars, val: Valuation, r: nat)
    requires IdcsIn(d, NonRenewableIdcs(d))
    requires Satisfies(TotalDemandRecords(d, v, NonRenewableIdcs(d), |NonRenewableIdcs(d)|), val)
    requires IsNonRenewable(d, r)
    ensures Total(v.resDemand(r), val) <= d.resources[r].capacity
  {
    var idcs := NonRenewableIdcs(d);
    var k :| 0 <= k < |idcs| && idcs[k] == r;
    TotalDemandRecordsContain(d, v, idcs, |idcs|, k);
    SatisfiesMember(TotalDemandRecords(d, v, idcs, |idcs|), TotalDemandRow(d, v, r), val);
    EvalSum(v.resDemand(r), val);
  }

  // ---------------------------------------------------------------- breaks

  /** Every mode has a mode literal and a list of break variables. */
  predicate BreaksKnown(d: SolverData, v: Vars)
  {
    |v.modes| == |d.modes| && |v.breaks| == |d.modes|
  }

  predicate BreaksBool(v: Vars, val: Valuation)
  {
    forall m, k :: 0 <= m < |v.breaks| && 0 <= k < |v.breaks[m]| ==> IsBool(val, v.breaks[m][k].selected)
  }

  function Selections(bvs: seq<BreakVar>): (r: seq<Lit>)
    ensures |r| == |bvs| && forall i :: 0 <= i < |bvs| ==> r[i] == bvs[i].selected
  {
    seq(|bvs|, i requires 0 <= i < |bvs| => bvs[i].selected)
  }

  /** `mode_var == sum(var.selected for var in break_vars)`. */
  function BreakCountRow(lit: Lit, bvs: seq<BreakVar>): Record
  {
    Linear([], Bool(lit), Eq, Sum(Bools(Selections(bvs))))
  }

  /** Under each selected break: the task's break time is its duration, the start lies in its domain. */
  function BreakVarRows(tv: TaskVars, bvs: seq<BreakVar>, n: nat): seq<Record>
    requires n <= |bvs|
  {
    if n == 0 then []
    else
      BreakVarRows(tv, bvs, n - 1)
      + [Linear([bvs[n - 1].selected], Value(tv.breaks), Eq, Num(bvs[n - 1].duration)),
         InDomain([bvs[n - 1].selected], Value(tv.start), bvs[n - 1].startDomain)]
  }

  /** The records of one mode of a task. */
  function ModeBreakBlock(tv: TaskVars, lit: Lit, bvs: seq<BreakVar>): seq<Record>
  {
    [BreakCountRow(lit, bvs)] + BreakVarRows(tv, bvs, |bvs|)
  }

  function ModeBreakRows(d: SolverData, v: Vars, t: nat, modes: seq<nat>, n: nat): seq<Record>
    requires BreaksKnown(d, v) && t < |v.tasks| && ModeIndices(d, modes) && n <= |modes|
  {
    if n == 0 then []
    else
      var mi := modes[n - 1];
      ModeBreakRows(d, v, t, modes, n - 1) + ModeBreakBlock(v.tasks[t], v.modes[mi], v.breaks[mi])
  }

  /** All records `_resource_breaks_constraints` emits for the first `n` tasks. */
  function BreakRecords(d: SolverData, v: Vars, n: nat): seq<Record>
    requires BreaksKnown(d, v) && n <= |v.tasks|
  {
    if n == 0 then [] else BreakRecords(d, v, n - 1) + TaskBreakBlock(d, v, n - 1)
  }

  /** `_resource_breaks_constraints`. */
  method ResourceBreaksConstraints(m: Model, d: SolverData, v: Vars)
    requires BreaksKnown(d, v)
    modifies m
    ensures m.log == old(m.log) + BreakRecords(d, v, |v.tasks|)
    ensures m.next == old(m.next) && m.hints == old(m.hints) && m.objective == old(m.objective)
  {
    ghost var log0 := m.log;
    var t := 0;
    while t < |v.tasks|
      invariant t <= |v.tasks|
      invariant m.log == log0 + BreakRecords(d, v, t)
      invariant m.next == old(m.next) && m.hints == old(m.hints) && m.objective == old(m.objective)
    {
      AddTaskBreaks(m, d, v, t, log0);
      t := t + 1;
    }
  }

  method AddTaskBreaks(m: Model, d: SolverData, v: Vars, t: nat, ghost log0: seq<Record>)
    requires BreaksKnown(d, v) && t < |v.tasks|
    requires m.log == log0 + BreakRecords(d, v, t)
    modifies m
    ensures m.log == log0 + BreakRecords(d, v, t + 1)
    ensures m.next == old(m.next) && m.hints == old(m.hints) && m.objective == old(m.objective)
  {
    var modes := Task2Modes(d, t);
    AddTaskModeBreaks(m, d, v, t, modes);
    AppendAssoc(log0, BreakRecords(d, v, t), ModeBreakRows(d, v, t, modes, |modes|));
    BreakRecordsStep(d, v, t);
  }

  /** The break records of task `t`, mode by mode. */
  method AddTaskModeBreaks(m: Model, d: SolverData, v: Vars, t: nat, modes: seq<nat>)
    requires BreaksKnown(d, v) && t < |v.tasks| && ModeIndices(d, modes)
    modifies m
    ensures m.log == old(m.log) + ModeBreakRows(d, v, t, modes, |modes|)
    ensures m.next == old(m.next) && m.hints == old(m.hints) && m.objective == old(m.objective)
  {
    ghost var x := m.log;
    var i := 0;
    while i < |modes|
      invariant i <= |modes|
      invariant m.log == x + ModeBreakRows(d, v, t, modes, i)
      invariant m.next == old(m.next) && m.hints == old(m.hints) && m.objective == old(m.objective)
    {
      var mi := modes[i];
      AddModeBreaks(m, v.tasks[t], v.modes[mi], v.breaks[mi]);
      AppendAssoc(x, ModeBreakRows(d, v, t, modes, i), ModeBreakBlock(v.tasks[t], v.modes[mi], v.breaks[mi]));
      i := i + 1;
    }
  }

  lemma {:induction false} BreakRecordsStep(d: SolverData, v: Vars, t: nat)
    requires BreaksKnown(d, v) && t < |v.tasks|
    ensures BreakRecords(d, v, t + 1) == BreakRecords(d, v, t) + ModeBreakRows(d, v, t, Task2Modes(d, t), |Task2Modes(d, t)|)
  {
  }

  method AddModeBreaks(m: Model, tv: TaskVars, lit: Lit, bvs: seq<BreakVar>)
    modifies m
    ensures m.log == old(m.log) + ModeBreakBlock(tv, lit, bvs)
    ensures m.next == old(m.next) && m.hints == old(m.hints) && m.objective == old(m.objective)
  {
    ghost var log0 := m.log;
    m.Add(BreakCountRow(lit, bvs));
    var k := 0;
    while k < |bvs|
      invariant k <= |bvs|
      invariant m.log == log0 + [BreakCountRow(lit, bvs)] + BreakVarRows(tv, bvs, k)
      invariant m.next == old(m.next) && m.hints == old(m.hints) && m.objective == old(m.objective)
    {
      var bv := bvs[k];
      ghost var y := m.log;
      m.Add(Linear([bv.selected], Value(tv.breaks), Eq, Num(bv.duration)));
      m.Add(InDomain([bv.selected], Value(tv.start), bv.startDomain));
      AppendAssoc(y, [Linear([bv.selected], Value(tv.breaks), Eq, Num(bv.duration))],
                  [InDomain([bv.selected], Value(tv.start), bv.startDomain)]);
      AppendAssoc(log0 + [BreakCountRow(lit, bvs)], BreakVarRows(tv, bvs, k),
                  [Linear([bv.selected], Value(tv.breaks), Eq, Num(bv.duration)),
                   InDomain([bv.selected], Value(tv.start), bv.startDomain)]);
      k := k + 1;
    }
    AppendAssoc(log0, [BreakCountRow(lit, bvs)], BreakVarRows(tv, bvs, |bvs|));
  }

  lemma {:induction false} BreakVarRowsContain(tv: TaskVars, bvs: seq<BreakVar>, n: nat, k: nat)
    requires k < n <= |bvs|
    ensures Linear([bvs[k].selected], Value(tv.breaks), Eq, Num(bvs[k].duration)) in BreakVarRows(tv, bvs, n)
    ensures InDomain([bvs[k].selected], Value(tv.start), bvs[k].startDomain) in BreakVarRows(tv, bvs, n)
  {
    if k < n - 1 {
      BreakVarRowsContain(tv, bvs, n - 1, k);
    }
  }

  lemma {:induction false} ModeBreakRowsContain(d: SolverData, v: Vars, t: nat, modes: seq<nat>, n: nat, i: nat, r: Record)
    requires BreaksKnown(d, v) && t < |v.tasks| && ModeIndices(d, modes) && i < n <= |modes|
    requires r in ModeBreakBlock(v.tasks[t], v.modes[modes[i]], v.breaks[modes[i]])
    ensures r in ModeBreakRows(d, v, t, modes, n)
  {
    var m := n - 1;
    ModeBreakRowsStep(d, v, t, modes, m, n);
    if i < m {
      ModeBreakRowsContain(d, v, t, modes, m, i, r);
    } else {
      assert i == m;
    }
  }

  lemma ModeBreakRowsStep(d: SolverData, v: Vars, t: nat, modes: seq<nat>, m: nat, n: nat)
    requires BreaksKnown(d, v) && t < |v.tasks| && ModeIndices(d, modes) && n == m + 1 <= |modes|
    ensures ModeBreakRows(d, v, t, modes, n) ==
            ModeBreakRows(d, v, t, modes, m) + ModeBreakBlock(v.tasks[t], v.modes[modes[m]], v.breaks[modes[m]])
  {
  }

  /** The records `_resource_breaks_constraints` emits for task `t`. */
  function TaskBreakBlock(d: SolverData, v: Vars, t: nat): seq<Record>
    requires BreaksKnown(d, v) && t < |v.tasks|
  {
    ModeBreakRows(d, v, t, Task2Modes(d, t), |Task2Modes(d, t)|)
  }

  function BreakBlocks(d: SolverData, v: Vars, n: nat): (r: seq<seq<Record>>)
    requires BreaksKnown(d, v) && n <= |v.tasks|
    ensures |r| == n && forall t {:trigger r[t]} :: 0 <= t < n ==> r[t] == TaskBreakBlock(d, v, t)
  {
    seq(n, t requires 0 <= t < n => TaskBreakBlock(d, v, t))
  }

  lemma {:induction false} BreakRecordsFlat(d: SolverData, v: Vars, n: nat)
    requires BreaksKnown(d, v) && n <= |v.tasks|
    ensures BreakRecords(d, v, n) == Flatten(BreakBlocks(d, v, n))
  {
    if n > 0 {
      BreakRecordsFlat(d, v, n - 1);
      assert BreakBlocks(d, v, n)[..n - 1] == BreakBlocks(d, v, n - 1);
    }
  }

  /** Every record of the break block of mode `m` holds. */
  lemma {:induction false} BreakRecordHolds(d: SolverData, v: Vars, val: Valuation, m: nat, r: Record)
    requires BreaksKnown(d, v) && m < |d.modes| && 0 <= d.modes[m].task < |v.tasks|
    requires Satisfies(BreakRecords(d, v, |v.tasks|), val)
    requires r in ModeBreakBlock(v.tasks[d.modes[m].task], v.modes[m], v.breaks[m])
    ensures Holds(r, val)
  {
    var t := d.modes[m].task;
    var modes := Task2Modes(d, t);
    assert m in modes;
    var i :| 0 <= i < |modes| && modes[i] == m;
    ModeBreakRowsContain(d, v, t, modes, |modes|, i, r);
    BreakRecordsContain(d, v, t, r);
    SatisfiesMember(BreakRecords(d, v, |v.tasks|), r, val);
  }

  /** A record of task `t`'s break block is among the break records. */
  lemma {:induction false} BreakRecordsContain(d: SolverData, v: Vars, t: nat, r: Record)
    requires BreaksKnown(d, v) && t < |v.tasks| && r in TaskBreakBlock(d, v, t)
    ensures r in BreakRecords(d, v, |v.tasks|)
  {
    BreakRecordsFlat(d, v, |v.tasks|);
    FlattenMember(BreakBlocks(d, v, |v.tasks|), t, r);
  }

  /** A selected mode selects exactly one of its breaks; an unselected mode selects none. */
  lemma {:induction false} BreakCountMeaning(d: SolverData, v: Vars, val: Valuation, m: nat)
    requires BreaksKnown(d, v) && m < |d.modes| && 0 <= d.modes[m].task < |v.tasks|
    requires ModesBool(v, val) && BreaksBool(v, val)
    requires Satisfies(BreakRecords(d, v, |v.tasks|), val)
    ensures CountTrue(Selections(v.breaks[m]), val) == if LitTrue(v.modes[m], val) then 1 else 0
  {
    var bvs := v.breaks[m];
    BreakRecordHolds(d, v, val, m, BreakCountRow(v.modes[m], bvs));
    SumOfLiterals(Selections(bvs), val);
    BoolValue(v.modes[m], val);
  }

  /** A selected break fixes the task's break time to its duration and puts the start in its domain. */
  lemma {:induction false} SelectedBreakMeaning(d: SolverData, v: Vars, val: Valuation, m: nat, k: nat)
    requires BreaksKnown(d, v) && m < |d.modes| && 0 <= d.modes[m].task < |v.tasks|
    requires Satisfies(BreakRecords(d, v, |v.tasks|), val)
    requires k < |v.breaks[m]| && LitTrue(v.breaks[m][k].selected, val)
    ensures var tv := v.tasks[d.modes[m].task];
            val(tv.breaks) == v.breaks[m][k].duration && val(tv.start) in v.breaks[m][k].startDomain
  {
    var tv := v.tasks[d.modes[m].task];
    var bvs := v.breaks[m];
    BreakVarRowsContain(tv, bvs, |bvs|, k);
    BreakRecordHolds(d, v, val, m, Linear([bvs[k].selected], Value(tv.breaks), Eq, Num(bvs[k].duration)));
    BreakRecordHolds(d, v, val, m, InDomain([bvs[k].selected], Value(tv.start), bvs[k].startDomain));
    assert AllTrue([bvs[k].selected], val);
  }
}
