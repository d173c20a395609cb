/**
 * The variables of the OR-Tools model (`pyjobshop/solvers/ortools/Variables.py`):
 * an interval with start, duration and end variables per job, task and mode,
 * a presence literal per task and mode, a lazily activated sequence per
 * machine, and the hints of a warm start.
 *
 * Each maker appends its records to the model and takes the next free
 * variable numbers in creation order, so the variables of the k-th job are
 * `base + 3k`, `base + 3k + 1`, `base + 3k + 2`, and so on.
 */
module OrVariables {
  import opened Wrappers
  import opened Constants
  import opened ProblemData
  import opened SolverUtils
  import opened SolverData
  import opened CpLog
  import Sets

  datatype JobVar = JobVar(interval: Interval, start: Var, duration: Var, end: Var)
  datatype TaskVar = TaskVar(interval: Interval, start: Var, duration: Var, end: Var, present: Lit)
  datatype ModeVar = ModeVar(task: int, interval: Interval, start: Var, duration: Var, end: Var, present: Var)

  function MinInt(a: int, b: int): int
  {
    if a <= b then a else b
  }

  // ------------------------------------------------------------ job variables

  function JobVarAt(v: Var): JobVar
  {
    JobVar(Interval(Value(v), Value(v + 1), Value(v + 2), Const(true)), v, v + 1, v + 2)
  }

  /** The variables of the first `n` jobs. */
  function JobVarsUpTo(base: nat, n: nat): (r: seq<JobVar>)
    ensures |r| == n && forall k :: 0 <= k < n ==> r[k] == JobVarAt(base + 3 * k)
  {
    if n == 0 then [] else JobVarsUpTo(base, n - 1) + [JobVarAt(base + 3 * (n - 1))]
  }

  /** The records of one job: start, duration and end variables, then the interval. */
  function JobBlock(job: Job, v: Var): seq<Record>
  {
    [ IntVar(v, job.releaseDate, MAX_VALUE),
      IntVar(v + 1, 0, MinInt(job.deadline - job.releaseDate, MAX_VALUE)),
      IntVar(v + 2, 0, MinInt(job.deadline, MAX_VALUE)),
      IntervalVar(JobVarAt(v).interval) ]
  }

  /** The records of the first `n` jobs, in creation order. */
  function JobRecords(jobs: seq<Job>, base: Var, n: nat): seq<Record>
    requires n <= |jobs|
  {
    if n == 0 then [] else JobRecords(jobs, base, n - 1) + JobBlock(jobs[n - 1], base + 3 * (n - 1))
  }

  /** A valuation satisfying the records of the first `n` jobs satisfies those of each of them. */
  lemma {:induction false} JobRecordsSatisfied(jobs: seq<Job>, base: Var, n: nat, val: Valuation, k: nat)
    requires k < n <= |jobs| && Satisfies(JobRecords(jobs, base, n), val)
    ensures Satisfies(JobBlock(jobs[k], base + 3 * k), val)
  {
    SatisfiesConcat(JobRecords(jobs, base, n - 1), JobBlock(jobs[n - 1], base + 3 * (n - 1)), val);
    if k < n - 1 {
      JobRecordsSatisfied(jobs, base, n - 1, val, k);
    }
  }

  /** `_make_job_variables`. */
  method MakeJobVariables(m: Model, jobs: seq<Job>) returns (vars: seq<JobVar>)
    modifies m
    ensures m.next == old(m.next) + 3 * |jobs|
    ensures m.log == old(m.log) + JobRecords(jobs, old(m.next), |jobs|)
    ensures vars == JobVarsUpTo(old(m.next), |jobs|)
    ensures m.hints == old(m.hints) && m.objective == old(m.objective)
  {
    ghost var base := m.next;
    ghost var log0 := m.log;
    vars := [];
    var idx := 0;
    while idx < |jobs|
      invariant idx <= |jobs|
      invariant m.next == base + 3 * idx
      invariant m.log == log0 + JobRecords(jobs, base, idx)
      invariant vars == JobVarsUpTo(base, idx)
      invariant m.hints == old(m.hints) && m.objective == old(m.objective)
    {
      var v := AddJobBlock(m, jobs[idx]);
      assert JobRecords(jobs, base, idx + 1) == JobRecords(jobs, base, idx) + JobBlock(jobs[idx], base + 3 * idx);
      vars := vars + [v];
      idx := idx + 1;
    }
  }

  /** The body of the loop in `_make_job_variables`: the variables of one job. */
  method AddJobBlock(m: Model, job: Job) returns (v: JobVar)
    modifies m
    ensures v == JobVarAt(old(m.next)) && m.next == old(m.next) + 3
    ensures m.log == old(m.log) + JobBlock(job, old(m.next))
    ensures m.hints == old(m.hints) && m.objective == old(m.objective)
  {
    var start := m.NewIntVar(job.releaseDate, MAX_VALUE);
    var duration := m.NewIntVar(0, MinInt(job.deadline - job.releaseDate, MAX_VALUE));
    var end := m.NewIntVar(0, MinInt(job.deadline, MAX_VALUE));
    var interval := Interval(Value(start), Value(duration), Value(end), Const(true));
    m.Add(IntervalVar(interval));
    v := JobVar(interval, start, duration, end);
  }

  /**
   * A valuation satisfying the job records puts each job's start in
   * [release_date, MAX_VALUE], its end in [0, min(deadline, MAX_VALUE)], and
   * makes start + duration = end.
   */
  lemma {:induction false} JobVarBounds(jobs: seq<Job>, base: Var, val: Valuation, k: nat)
    requires Satisfies(JobRecords(jobs, base, |jobs|), val) && k < |jobs|
    ensures var v := JobVarAt(base + 3 * k);
            && jobs[k].releaseDate <= val(v.start) <= MAX_VALUE
            && 0 <= val(v.duration) <= MinInt(jobs[k].deadline - jobs[k].releaseDate, MAX_VALUE)
            && 0 <= val(v.end) <= MinInt(jobs[k].deadline, MAX_VALUE)
            && val(v.start) + val(v.duration) == val(v.end)
  {
    JobRecordsSatisfied(jobs, base, |jobs|, val, k);
    var block := JobBlock(jobs[k], base + 3 * k);
    assert Holds(block[0], val) && Holds(block[1], val) && Holds(block[2], val) && Holds(block[3], val);
  }

  // ----------------------------------------------------------- task variables

  function TaskVarAt(v: Var): TaskVar
  {
    TaskVar(Interval(Value(v), Value(v + 1), Value(v + 2), Pos(v + 3)), v, v + 1, v + 2, Pos(v + 3))
  }

  /** The variables of the first `n` tasks. */
  function TaskVarsUpTo(base: nat, n: nat): (r: seq<TaskVar>)
    ensures |r| == n && forall k :: 0 <= k < n ==> r[k] == TaskVarAt(base + 4 * k)
  {
    if n == 0 then [] else TaskVarsUpTo(base, n - 1) + [TaskVarAt(base + 4 * (n - 1))]
  }

  /**
   * The duration variable of a task: the domain of its mode durations when
   * the duration is fixed, otherwise [min mode duration, MAX_VALUE].
   */
  function DurationRecord(task: SolverTask, durations: seq<int>, v: Var): Record
    requires !task.fixedDuration ==> durations != []
  {
    if task.fixedDuration then DomainVar(v, Elements(durations))
    else IntVar(v, Min(durations), MAX_VALUE)
  }

  /**
   * The records of one task: start, duration, end, then the presence (a
   * fresh Boolean when the task is optional, the constant true otherwise),
   * then the optional interval.
   */
  function TaskBlock(task: SolverTask, durations: seq<int>, v: Var): seq<Record>
    requires !task.fixedDuration ==> durations != []
  {
    [ IntVar(v, task.earliestStart, MinInt(task.latestStart, MAX_VALUE)),
      DurationRecord(task, durations, v + 1),
      IntVar(v + 2, task.earliestEnd, MinInt(task.latestEnd, MAX_VALUE)),
      if task.optional then BoolVar(v + 3) else ConstVar(v + 3, 1),
      IntervalVar(TaskVarAt(v).interval) ]
  }

  /** Every task whose duration is not fixed has a mode, so `min` is defined. */
  predicate DurationsDefined(tasks: seq<SolverTask>, durations: seq<seq<int>>)
  {
    |durations| == |tasks| && forall k :: 0 <= k < |tasks| && !tasks[k].fixedDuration ==> durations[k] != []
  }

  /** The records of the first `n` tasks, in creation order. */
  function TaskRecords(tasks: seq<SolverTask>, durations: seq<seq<int>>, base: Var, n: nat): seq<Record>
    requires DurationsDefined(tasks, durations) && n <= |tasks|
  {
    if n == 0 then []
    else TaskRecords(tasks, durations, base, n - 1) + TaskBlock(tasks[n - 1], durations[n - 1], base + 4 * (n - 1))
  }

  /** A valuation satisfying the records of the first `n` tasks satisfies those of each of them. */
  lemma {:induction false} TaskRecordsSatisfied(tasks: seq<SolverTask>, durations: seq<seq<int>>, base: Var, n: nat, val: Valuation, k: nat)
    requires DurationsDefined(tasks, durations) && k < n <= |tasks|
    requires Satisfies(TaskRecords(tasks, durations, base, n), val)
    ensures Satisfies(TaskBlock(tasks[k], durations[k], base + 4 * k), val)
  {
    SatisfiesConcat(TaskRecords(tasks, durations, base, n - 1), TaskBlock(tasks[n - 1], durations[n - 1], base + 4 * (n - 1)), val);
    if k < n - 1 {
      TaskRecordsSatisfied(tasks, durations, base, n - 1, val, k);
    }
  }

  /**
   * `_make_task_variables`. The duration lists are those of
   * `compute_task_durations`; `min` of an empty list raises, which is the
   * error path: the index of the first task with neither a fixed duration nor
   * a mode.
   */
  /** A task whose duration is not fixed and that has no mode to take one from. */
  predicate Modeless(d: SolverData, k: int)
    requires 0 <= k < |d.tasks|
  {
    !d.tasks[k].fixedDuration && Task2Modes(d, k) == []
  }

  /** Task `i` is the first modeless task: the one `_make_task_variables` fails on. */
  predicate FirstModeless(d: SolverData, i: int)
  {
    && 0 <= i < |d.tasks|
    && Modeless(d, i)
    && forall k :: 0 <= k < i ==> !Modeless(d, k)
  }

  method MakeTaskVariables(m: Model, d: SolverData) returns (r: Result<seq<TaskVar>, nat>)
    requires Indexed(d)
    modifies m
    ensures r.Err? ==> FirstModeless(d, r.error)
    ensures r.Ok? ==>
      && (forall k :: 0 <= k < |d.tasks| ==> !Modeless(d, k))
      && DurationsDefined(d.tasks, TaskDurations(d))
      && m.next == old(m.next) + 4 * |d.tasks|
      && m.log == old(m.log) + TaskRecords(d.tasks, TaskDurations(d), old(m.next), |d.tasks|)
      && r.value == TaskVarsUpTo(old(m.next), |d.tasks|)
    ensures m.hints == old(m.hints) && m.objective == old(m.objective)
  {
    var durations := ComputeTaskDurations(d.modes, |d.tasks|);
    TaskDurationsEmpty(d, durations);
    var undefined := FirstUndefined(d.tasks, durations, |d.tasks|);
    if undefined.Some? {
      UndefinedIsModeless(d, durations, undefined.value);
      return Err(undefined.value);
    }
    DefinedMeansNoModeless(d, durations);
    var vars := AddTaskBlocks(m, d.tasks, durations);
    r := Ok(vars);
  }

  /** A task's duration list is empty exactly when the task has no modes. */
  lemma {:induction false} TaskDurationsEmpty(d: SolverData, durations: seq<seq<int>>)
    requires Indexed(d) && |durations| == |d.tasks|
    requires forall t :: 0 <= t < |d.tasks| ==> durations[t] == DurationsOf(d.modes, ModesOf(d.modes, t))
    ensures durations == TaskDurations(d)
    ensures forall k :: 0 <= k < |d.tasks| ==> (durations[k] == [] <==> Task2Modes(d, k) == [])
  {
  }

  lemma {:induction false} UndefinedIsModeless(d: SolverData, durations: seq<seq<int>>, i: nat)
    requires |durations| == |d.tasks|
    requires forall k :: 0 <= k < |d.tasks| ==> (durations[k] == [] <==> Task2Modes(d, k) == [])
    requires i < |d.tasks| && !d.tasks[i].fixedDuration && durations[i] == []
    requires DurationsDefined(d.tasks[..i], durations[..i])
    ensures FirstModeless(d, i)
  {
    forall k | 0 <= k < i
      ensures !Modeless(d, k)
    {
      assert d.tasks[..i][k] == d.tasks[k] && durations[..i][k] == durations[k];
    }
  }

  lemma {:induction false} DefinedMeansNoModeless(d: SolverData, durations: seq<seq<int>>)
    requires |durations| == |d.tasks|
    requires forall k :: 0 <= k < |d.tasks| ==> (durations[k] == [] <==> Task2Modes(d, k) == [])
    requires DurationsDefined(d.tasks[..|d.tasks|], durations[..|d.tasks|])
    ensures DurationsDefined(d.tasks, durations)
    ensures forall k :: 0 <= k < |d.tasks| ==> !Modeless(d, k)
  {
    assert d.tasks[..|d.tasks|] == d.tasks && durations[..|d.tasks|] == durations;
  }

  /**
   * The first of the first `n` tasks whose `min` over mode durations raises:
   * its duration is not fixed and it has no mode.
   */
  function FirstUndefined(tasks: seq<SolverTask>, durations: seq<seq<int>>, n: nat): (r: Option<nat>)
    requires n <= |tasks| == |durations|
    ensures r.None? <==> DurationsDefined(tasks[..n], durations[..n])
    ensures r.Some? ==> r.value < n && !tasks[r.value].fixedDuration && durations[r.value] == []
    ensures r.Some? ==> DurationsDefined(tasks[..r.value], durations[..r.value])
  {
    if n == 0 then None
    else
      var prefix := FirstUndefined(tasks, durations, n - 1);
      assert forall k :: 0 <= k < n - 1 ==> tasks[..n][k] == tasks[..n - 1][k] && durations[..n][k] == durations[..n - 1][k];
      if prefix.Some? then
        assert forall k :: 0 <= k < prefix.value ==> tasks[..prefix.value][k] == tasks[..n - 1][k];
        prefix
      else if !tasks[n - 1].fixedDuration && durations[n - 1] == [] then Some(n - 1)
      else None
  }

  /** The loop of `_make_task_variables`, once every `min` is known to be defined. */
  method AddTaskBlocks(m: Model, tasks: seq<SolverTask>, durations: seq<seq<int>>) returns (vars: seq<TaskVar>)
    requires DurationsDefined(tasks, durations)
    modifies m
    ensures m.next == old(m.next) + 4 * |tasks|
    ensures m.log == old(m.log) + TaskRecords(tasks, durations, old(m.next), |tasks|)
    ensures vars == TaskVarsUpTo(old(m.next), |tasks|)
    ensures m.hints == old(m.hints) && m.objective == old(m.objective)
  {
    ghost var base := m.next;
    ghost var log0 := m.log;
    vars := [];
    var idx := 0;
    while idx < |tasks|
      invariant idx <= |tasks|
      invariant m.next == base + 4 * idx
      invariant m.log == log0 + TaskRecords(tasks, durations, base, idx)
      invariant vars == TaskVarsUpTo(base, idx)
      invariant m.hints == old(m.hints) && m.objective == old(m.objective)
    {
      var v := AddTaskBlock(m, tasks[idx], durations[idx]);
      assert TaskRecords(tasks, durations, base, idx + 1) == TaskRecords(tasks, durations, base, idx) + TaskBlock(tasks[idx], durations[idx], base + 4 * idx);
      vars := vars + [v];
      idx := idx + 1;
    }
  }

  /** The body of the loop in `_make_task_variables`: the variables of one task. */
  method AddTaskBlock(m: Model, task: SolverTask, durations: seq<int>) returns (v: TaskVar)
    requires !task.fixedDuration ==> durations != []
    modifies m
    ensures v == TaskVarAt(old(m.next)) && m.next == old(m.next) + 4
    ensures m.log == old(m.log) + TaskBlock(task, durations, old(m.next))
    ensures m.hints == old(m.hints) && m.objective == old(m.objective)
  {
    var start := m.NewIntVar(task.earliestStart, MinInt(task.latestStart, MAX_VALUE));
    var duration;
    if task.fixedDuration {
      duration := m.NewDomainVar(Elements(durations));
    } else {
      duration := m.NewIntVar(Min(durations), MAX_VALUE);
    }
    var end := m.NewIntVar(task.earliestEnd, MinInt(task.latestEnd, MAX_VALUE));
    var present;
    if task.optional {
      present := m.NewBoolVar();
    } else {
      present := m.NewConstant(1);
    }
    var interval := Interval(Value(start), Value(duration), Value(end), Pos(present));
    m.Add(IntervalVar(interval));
    v := TaskVar(interval, start, duration, end, Pos(present));
  }

  /** `compute_task_durations` as a function. */
  function TaskDurations(d: SolverData): (r: seq<seq<int>>)
    requires Indexed(d)
    ensures |r| == |d.tasks|
  {
    seq(|d.tasks|, t requires 0 <= t < |d.tasks| => DurationsOf(d.modes, Task2Modes(d, t)))
  }

  /**
   * A valuation satisfying the task records keeps each task's start and end
   * within its window clamped at MAX_VALUE, its duration within the mode
   * durations (exactly one of them when fixed), a non-optional task present,
   * and start + duration = end when present.
   */
  lemma {:induction false} TaskVarBounds(tasks: seq<SolverTask>, durations: seq<seq<int>>, base: Var, val: Valuation, k: nat)
    requires DurationsDefined(tasks, durations)
    requires Satisfies(TaskRecords(tasks, durations, base, |tasks|), val) && k < |tasks|
    ensures var v := TaskVarAt(base + 4 * k);
            var task := tasks[k];
            && task.earliestStart <= val(v.start) <= MinInt(task.latestStart, MAX_VALUE)
            && task.earliestEnd <= val(v.end) <= MinInt(task.latestEnd, MAX_VALUE)
            && (task.fixedDuration ==> val(v.duration) in durations[k])
            && (!task.fixedDuration ==> Min(durations[k]) <= val(v.duration) <= MAX_VALUE)
            && (!task.optional ==> LitTrue(v.present, val))
            && IsBool(val, v.present)
            && (LitTrue(v.present, val) ==> val(v.start) + val(v.duration) == val(v.end))
  {
    TaskRecordsSatisfied(tasks, durations, base, |tasks|, val, k);
    TaskBlockBounds(tasks[k], durations[k], base + 4 * k, val);
  }

  /** What a valuation satisfying one task's records says about its variables. */
  lemma {:induction false} TaskBlockBounds(task: SolverTask, durations: seq<int>, v: Var, val: Valuation)
    requires !task.fixedDuration ==> durations != []
    requires Satisfies(TaskBlock(task, durations, v), val)
    ensures var tv := TaskVarAt(v);
            && task.earliestStart <= val(tv.start) <= MinInt(task.latestStart, MAX_VALUE)
            && task.earliestEnd <= val(tv.end) <= MinInt(task.latestEnd, MAX_VALUE)
            && (task.fixedDuration ==> val(tv.duration) in durations)
            && (!task.fixedDuration ==> Min(durations) <= val(tv.duration) <= MAX_VALUE)
            && (!task.optional ==> LitTrue(tv.present, val))
            && IsBool(val, tv.present)
            && (LitTrue(tv.present, val) ==> val(tv.start) + val(tv.duration) == val(tv.end))
  {
    var block := TaskBlock(task, durations, v);
    assert Holds(block[0], val) && Holds(block[1], val) && Holds(block[2], val);
    assert Holds(block[3], val) && Holds(block[4], val);
  }

  // ----------------------------------------------------------- mode variables

  function ModeVarAt(task: int, v: Var): ModeVar
  {
    ModeVar(task, Interval(Value(v), Value(v + 1), Value(v + 2), Pos(v + 3)), v, v + 1, v + 2, v + 3)
  }

  /**
   * The records of one mode: start and end within its task's windows, a
   * duration of at least the mode's duration (exactly it when the task's
   * duration is fixed), a fresh presence and the optional interval.
   */
  function ModeBlock(mode: Mode, task: SolverTask, v: Var): seq<Record>
  {
    [ IntVar(v, task.earliestStart, MinInt(task.latestStart, MAX_VALUE)),
      IntVar(v + 1, mode.duration, if task.fixedDuration then mode.duration else MAX_VALUE),
      IntVar(v + 2, task.earliestEnd, MinInt(task.latestEnd, MAX_VALUE)),
      BoolVar(v + 3),
      IntervalVar(ModeVarAt(mode.task, v).interval) ]
  }

  /** Every mode's task exists: what `data.tasks[mode.task]` relies on. */
  predicate ModeTasksKnown(d: SolverData)
  {
    forall k :: 0 <= k < |d.modes| ==> 0 <= d.modes[k].task < |d.tasks|
  }

  /** The records of the first `n` modes, in creation order. */
  function ModeRecords(d: SolverData, base: Var, n: nat): seq<Record>
    requires ModeTasksKnown(d) && n <= |d.modes|
  {
    if n == 0 then [] else ModeRecords(d, base, n - 1) + ModeBlock(d.modes[n - 1], d.tasks[d.modes[n - 1].task], base + 4 * (n - 1))
  }

  /** A valuation satisfying the records of the first `n` modes satisfies those of each of them. */
  lemma {:induction false} ModeRecordsSatisfied(d: SolverData, base: Var, n: nat, val: Valuation, k: nat)
    requires ModeTasksKnown(d) && k < n <= |d.modes| && Satisfies(ModeRecords(d, base, n), val)
    ensures Satisfies(ModeBlock(d.modes[k], d.tasks[d.modes[k].task], base + 4 * k), val)
  {
    SatisfiesConcat(ModeRecords(d, base, n - 1), ModeBlock(d.modes[n - 1], d.tasks[d.modes[n - 1].task], base + 4 * (n - 1)), val);
    if k < n - 1 {
      ModeRecordsSatisfied(d, base, n - 1, val, k);
    }
  }

  /** `_make_mode_variables`. */
  method MakeModeVariables(m: Model, d: SolverData) returns (vars: seq<ModeVar>)
    requires ModeTasksKnown(d)
    modifies m
    ensures m.next == old(m.next) + 4 * |d.modes|
    ensures m.log == old(m.log) + ModeRecords(d, old(m.next), |d.modes|)
    ensures vars == ModeVarsUpTo(d, old(m.next), |d.modes|)
    ensures m.hints == old(m.hints) && m.objective == old(m.objective)
  {
    ghost var base := m.next;
    ghost var log0 := m.log;
    vars := [];
    var idx := 0;
    while idx < |d.modes|
      invariant idx <= |d.modes|
      invariant m.next == base + 4 * idx
      invariant m.log == log0 + ModeRecords(d, base, idx)
      invariant vars == ModeVarsUpTo(d, base, idx)
      invariant m.hints == old(m.hints) && m.objective == old(m.objective)
    {
      var mode := d.modes[idx];
      var v := AddModeBlock(m, mode, d.tasks[mode.task]);
      assert ModeRecords(d, base, idx + 1) == ModeRecords(d, base, idx) + ModeBlock(mode, d.tasks[mode.task], base + 4 * idx);
      vars := vars + [v];
      idx := idx + 1;
    }
  }

  function ModeVarsUpTo(d: SolverData, base: Var, n: nat): (r: seq<ModeVar>)
    requires n <= |d.modes|
    ensures |r| == n && forall k :: 0 <= k < n ==> r[k] == ModeVarAt(d.modes[k].task, base + 4 * k)
  {
    if n == 0 then [] else ModeVarsUpTo(d, base, n - 1) + [ModeVarAt(d.modes[n - 1].task, base + 4 * (n - 1))]
  }

  /** The body of the loop in `_make_mode_variables`: the variables of one mode. */
  method AddModeBlock(m: Model, mode: Mode, task: SolverTask) returns (v: ModeVar)
    modifies m
    ensures v == ModeVarAt(mode.task, old(m.next)) && m.next == old(m.next) + 4
    ensures m.log == old(m.log) + ModeBlock(mode, task, old(m.next))
    ensures m.hints == old(m.hints) && m.objective == old(m.objective)
  {
    var start := m.NewIntVar(task.earliestStart, MinInt(task.latestStart, MAX_VALUE));
    var duration := m.NewIntVar(mode.duration, if task.fixedDuration then mode.duration else MAX_VALUE);
    var end := m.NewIntVar(task.earliestEnd, MinInt(task.latestEnd, MAX_VALUE));
    var present := m.NewBoolVar();
    var interval := Interval(Value(start), Value(duration), Value(end), Pos(present));
    m.Add(IntervalVar(interval));
    v := ModeVar(mode.task, interval, start, duration, end, present);
  }

  /**
   * A valuation satisfying the mode records gives each mode a duration of at
   * least `mode.duration`, exactly `mode.duration` for a fixed-duration task.
   */
  lemma {:induction false} ModeVarBounds(d: SolverData, base: Var, val: Valuation, k: nat)
    requires ModeTasksKnown(d) && Satisfies(ModeRecords(d, base, |d.modes|), val) && k < |d.modes|
    ensures var v := ModeVarAt(d.modes[k].task, base + 4 * k);
            var task := d.tasks[d.modes[k].task];
            && d.modes[k].duration <= val(v.duration)
            && (task.fixedDuration ==> val(v.duration) == d.modes[k].duration)
            && (!task.fixedDuration ==> val(v.duration) <= MAX_VALUE)
            && task.earliestStart <= val(v.start) <= MinInt(task.latestStart, MAX_VALUE)
            && task.earliestEnd <= val(v.end) <= MinInt(task.latestEnd, MAX_VALUE)
            && 0 <= val(v.present) <= 1
  {
    ModeRecordsSatisfied(d, base, |d.modes|, val, k);
    ModeBlockBounds(d.modes[k], d.tasks[d.modes[k].task], base + 4 * k, val);
  }

  /** What a valuation satisfying one mode's records says about its variables. */
  lemma {:induction false} ModeBlockBounds(mode: Mode, task: SolverTask, v: Var, val: Valuation)
    requires Satisfies(ModeBlock(mode, task, v), val)
    ensures var mv := ModeVarAt(mode.task, v);
            && mode.duration <= val(mv.duration)
            && (task.fixedDuration ==> val(mv.duration) == mode.duration)
            && (!task.fixedDuration ==> val(mv.duration) <= MAX_VALUE)
            && task.earliestStart <= val(mv.start) <= MinInt(task.latestStart, MAX_VALUE)
            && task.earliestEnd <= val(mv.end) <= MinInt(task.latestEnd, MAX_VALUE)
            && 0 <= val(mv.present) <= 1
  {
    var block := ModeBlock(mode, task, v);
    assert Holds(block[0], val) && Holds(block[1], val) && Holds(block[2], val) && Holds(block[3], val);
  }

  // ------------------------------------------------------- sequence variables

  const DUMMY: int := -1

  /** The nodes of a sequence over `n` mode positions: 0 .. n-1, then DUMMY. */
  function Nodes(n: nat): (r: seq<int>)
    ensures |r| == n + 1 && r[n] == DUMMY && forall k :: 0 <= k < n ==> r[k] == k
  {
    seq(n, k => k) + [DUMMY]
  }

  lemma {:induction false} NodesDistinct(n: nat)
    ensures Distinct(Nodes(n))
  {
  }

  /** Every ordered pair of nodes, self-loops and the dummy included. */
  function NodePairs(n: nat): set<(int, int)>
  {
    set a, b | 0 <= a <= n && 0 <= b <= n :: (Nodes(n)[a], Nodes(n)[b])
  }

  /** `log` followed by `n` fresh Boolean variables numbered from `base`. */
  function AppendBools(log: seq<Record>, base: nat, n: nat): seq<Record>
  {
    if n == 0 then log else AppendBools(log, base, n - 1) + [BoolVar(base + n - 1)]
  }

  lemma {:induction false} AppendBoolsShape(log: seq<Record>, base: nat, n: nat)
    ensures var r := AppendBools(log, base, n);
            && |r| == |log| + n
            && (forall k :: 0 <= k < |log| ==> r[k] == log[k])
            && (forall k :: |log| <= k < |r| ==> r[k] == BoolVar(base + k - |log|))
  {
    if n > 0 {
      AppendBoolsShape(log, base, n - 1);
      var r0 := AppendBools(log, base, n - 1);
      var r := AppendBools(log, base, n);
      assert r == r0 + [BoolVar(base + n - 1)];
      forall k | |log| <= k < |r|
        ensures r[k] == BoolVar(base + k - |log|)
      {
        if k < |r| - 1 {
          assert r[k] == r0[k];
        }
      }
    }
  }

  lemma {:induction false} AppendBoolsTwice(log: seq<Record>, base: nat, n: nat, w: nat)
    ensures AppendBools(AppendBools(log, base, n), base + n, w) == AppendBools(log, base, n + w)
  {
    if w > 0 {
      AppendBoolsTwice(log, base, n, w - 1);
    }
  }

  /** The arcs leaving node position `a` towards the first `b` positions. */
  function RowKeys(nodes: seq<int>, a: nat, b: nat): set<(int, int)>
    requires a < |nodes| && b <= |nodes|
  {
    set y | 0 <= y < b :: (nodes[a], nodes[y])
  }

  /** The arcs leaving the first `a` node positions. */
  function KeysBefore(nodes: seq<int>, a: nat): set<(int, int)>
    requires a <= |nodes|
  {
    set x, y | 0 <= x < a && 0 <= y < |nodes| :: (nodes[x], nodes[y])
  }

  predicate Distinct(nodes: seq<int>)
  {
    forall x, y :: 0 <= x < y < |nodes| ==> nodes[x] != nodes[y]
  }

  /** The number of arcs in the rows before row `x` when every row has `w`: `x * w`. */
  function RowStart(x: nat, w: nat): nat
  {
    if x == 0 then 0 else RowStart(x - 1, w) + w
  }

  lemma {:induction false} RowStartIsProduct(x: nat, w: nat)
    ensures RowStart(x, w) == x * w
  {
    if x > 0 {
      RowStartIsProduct(x - 1, w);
      MulSucc(x - 1, w);
    }
  }

  lemma {:induction false} MulSucc(a: nat, w: nat)
    ensures (a + 1) * w == a * w + w
  {
  }

  lemma {:induction false} RowStartGrows(x1: nat, x2: nat, w: nat)
    requires x1 < x2
    ensures RowStart(x1, w) + w <= RowStart(x2, w)
  {
    if x1 < x2 - 1 {
      RowStartGrows(x1, x2 - 1, w);
    }
  }

  /** `arcs` extended by the arcs from node `a` to the first `b` nodes, numbered from `first`. */
  function RowArcs(arcs: map<(int, int), Var>, nodes: seq<int>, a: nat, b: nat, first: nat): map<(int, int), Var>
    requires a < |nodes| && b <= |nodes|
  {
    if b == 0 then arcs else RowArcs(arcs, nodes, a, b - 1, first)[(nodes[a], nodes[b - 1]) := first + b - 1]
  }

  /** The arc literals created for the first `a` rows, numbered from `base` in creation order. */
  function ArcsBefore(nodes: seq<int>, a: nat, base: nat): map<(int, int), Var>
    requires a <= |nodes|
  {
    if a == 0 then map[]
    else RowArcs(ArcsBefore(nodes, a - 1, base), nodes, a - 1, |nodes|, base + RowStart(a - 1, |nodes|))
  }

  /** The arc literals of a sequence over `n` modes, numbered from `base`. */
  function Arcs(n: nat, base: nat): map<(int, int), Var>
  {
    ArcsBefore(Nodes(n), n + 1, base)
  }

  lemma {:induction false} RowArcsKeys(arcs: map<(int, int), Var>, nodes: seq<int>, a: nat, b: nat, first: nat)
    requires a < |nodes| && b <= |nodes|
    ensures RowArcs(arcs, nodes, a, b, first).Keys == arcs.Keys + RowKeys(nodes, a, b)
  {
    if b > 0 {
      RowArcsKeys(arcs, nodes, a, b - 1, first);
      assert RowKeys(nodes, a, b) == RowKeys(nodes, a, b - 1) + {(nodes[a], nodes[b - 1])};
    }
  }

  /** Row `a` numbers its arcs from `first` and leaves every other arc as it was. */
  lemma {:induction false} RowArcsValues(arcs: map<(int, int), Var>, nodes: seq<int>, a: nat, b: nat, first: nat)
    requires a < |nodes| && b <= |nodes| && Distinct(nodes)
    ensures forall y :: 0 <= y < b ==>
      (nodes[a], nodes[y]) in RowArcs(arcs, nodes, a, b, first) &&
      RowArcs(arcs, nodes, a, b, first)[(nodes[a], nodes[y])] == first + y
    ensures forall x, y :: 0 <= x < |nodes| && x != a && 0 <= y < |nodes| && (nodes[x], nodes[y]) in arcs ==>
      (nodes[x], nodes[y]) in RowArcs(arcs, nodes, a, b, first) &&
      RowArcs(arcs, nodes, a, b, first)[(nodes[x], nodes[y])] == arcs[(nodes[x], nodes[y])]
  {
    if b > 0 {
      RowArcsValues(arcs, nodes, a, b - 1, first);
    }
  }

  lemma {:induction false} ArcsBeforeKeys(nodes: seq<int>, a: nat, base: nat)
    requires a <= |nodes|
    ensures ArcsBefore(nodes, a, base).Keys == KeysBefore(nodes, a)
  {
    if a > 0 {
      ArcsBeforeKeys(nodes, a - 1, base);
      RowArcsKeys(ArcsBefore(nodes, a - 1, base), nodes, a - 1, |nodes|, base + RowStart(a - 1, |nodes|));
      KeysBeforeStep(nodes, a - 1);
    }
  }

  lemma {:induction false} KeysBeforeStep(nodes: seq<int>, a: nat)
    requires a < |nodes|
    ensures KeysBefore(nodes, a + 1) == KeysBefore(nodes, a) + RowKeys(nodes, a, |nodes|)
  {
    forall p | p in KeysBefore(nodes, a + 1)
      ensures p in KeysBefore(nodes, a) + RowKeys(nodes, a, |nodes|)
    {
      var x, y :| 0 <= x < a + 1 && 0 <= y < |nodes| && p == (nodes[x], nodes[y]);
      if x < a {
        assert p in KeysBefore(nodes, a);
      } else {
        assert p in RowKeys(nodes, a, |nodes|);
      }
    }
  }

  /**
   * The arcs leaving the first `a` node positions carry the literals created
   * for them, in creation order: arc (x, y) gets `base + x * w + y`.
   */
  predicate NumberedArcs(arcs: map<(int, int), Var>, nodes: seq<int>, a: nat, base: nat)
    requires a <= |nodes|
  {
    forall x, y :: 0 <= x < a && 0 <= y < |nodes| ==>
      (nodes[x], nodes[y]) in arcs && arcs[(nodes[x], nodes[y])] == base + RowStart(x, |nodes|) + y
  }

  lemma {:induction false} ArcsBeforeNumbered(nodes: seq<int>, a: nat, base: nat)
    requires a <= |nodes| && Distinct(nodes)
    ensures NumberedArcs(ArcsBefore(nodes, a, base), nodes, a, base)
  {
    if a > 0 {
      var prev := ArcsBefore(nodes, a - 1, base);
      var arcs := ArcsBefore(nodes, a, base);
      ArcsBeforeNumbered(nodes, a - 1, base);
      RowArcsValues(prev, nodes, a - 1, |nodes|, base + RowStart(a - 1, |nodes|));
      forall x, y | 0 <= x < a && 0 <= y < |nodes|
        ensures (nodes[x], nodes[y]) in arcs && arcs[(nodes[x], nodes[y])] == base + RowStart(x, |nodes|) + y
      {
        if x < a - 1 {
          assert (nodes[x], nodes[y]) in prev;
        }
      }
    }
  }

  /** A sequence over `n` modes has an arc for every ordered pair of nodes, self-loops and the dummy included. */
  lemma {:induction false} ArcsKeys(n: nat, base: nat)
    ensures Arcs(n, base).Keys == NodePairs(n)
  {
    ArcsBeforeKeys(Nodes(n), n + 1, base);
    KeysBeforeAll(n);
  }

  /** Arc (x, y) of node positions carries literal `base + x * (n + 1) + y`, the creation order. */
  lemma {:induction false} ArcsNumbered(n: nat, base: nat)
    ensures forall x, y :: 0 <= x <= n && 0 <= y <= n ==>
      (Nodes(n)[x], Nodes(n)[y]) in Arcs(n, base) &&
      Arcs(n, base)[(Nodes(n)[x], Nodes(n)[y])] == base + x * (n + 1) + y
  {
    var w := n + 1;
    NodesDistinct(n);
    ArcsBeforeNumbered(Nodes(n), w, base);
    forall x | 0 <= x < w
      ensures RowStart(x, w) == x * w
    {
      RowStartIsProduct(x, w);
    }
  }

  /** No two arcs of a sequence share a literal. */
  lemma {:induction false} ArcsDistinct(n: nat, base: nat)
    ensures forall p, q :: p in Arcs(n, base) && q in Arcs(n, base) && p != q ==> Arcs(n, base)[p] != Arcs(n, base)[q]
  {
    var nodes := Nodes(n);
    NodesDistinct(n);
    ArcsBeforeKeys(nodes, n + 1, base);
    ArcsBeforeNumbered(nodes, n + 1, base);
    NumberedArcsDistinct(Arcs(n, base), nodes, base);
  }

  lemma {:induction false} NumberedArcsDistinct(arcs: map<(int, int), Var>, nodes: seq<int>, base: nat)
    requires arcs.Keys == KeysBefore(nodes, |nodes|) && NumberedArcs(arcs, nodes, |nodes|, base)
    ensures forall p, q :: p in arcs && q in arcs && p != q ==> arcs[p] != arcs[q]
  {
    forall p, q | p in arcs && q in arcs && p != q
      ensures arcs[p] != arcs[q]
    {
      var x1, y1 :| 0 <= x1 < |nodes| && 0 <= y1 < |nodes| && p == (nodes[x1], nodes[y1]);
      var x2, y2 :| 0 <= x2 < |nodes| && 0 <= y2 < |nodes| && q == (nodes[x2], nodes[y2]);
      PositionsDistinct(x1, y1, x2, y2, |nodes|);
    }
  }

  lemma {:induction false} PositionsDistinct(x1: nat, y1: nat, x2: nat, y2: nat, w: nat)
    requires y1 < w && y2 < w && (x1, y1) != (x2, y2)
    ensures RowStart(x1, w) + y1 != RowStart(x2, w) + y2
  {
    if x1 < x2 {
      RowStartGrows(x1, x2, w);
    } else if x2 < x1 {
      RowStartGrows(x2, x1, w);
    }
  }

  lemma {:induction false} KeysBeforeAll(n: nat)
    ensures KeysBefore(Nodes(n), n + 1) == NodePairs(n)
  {
    var nodes := Nodes(n);
    forall p | p in NodePairs(n)
      ensures p in KeysBefore(nodes, n + 1)
    {
      var x, y :| 0 <= x <= n && 0 <= y <= n && p == (nodes[x], nodes[y]);
    }
    forall p | p in KeysBefore(nodes, n + 1)
      ensures p in NodePairs(n)
    {
      var x, y :| 0 <= x < n + 1 && 0 <= y < |nodes| && p == (nodes[x], nodes[y]);
    }
  }

  /** The inner loop of `activate`: one fresh literal per arc leaving node `a`. */
  method AddArcRow(m: Model, nodes: seq<int>, a: nat, arcs: map<(int, int), Var>) returns (arcs2: map<(int, int), Var>)
    requires a < |nodes|
    modifies m
    ensures arcs2 == RowArcs(arcs, nodes, a, |nodes|, old(m.next))
    ensures m.next == old(m.next) + |nodes| && m.log == AppendBools(old(m.log), old(m.next), |nodes|)
    ensures m.hints == old(m.hints) && m.objective == old(m.objective)
  {
    arcs2 := arcs;
    var b := 0;
    while b < |nodes|
      invariant b <= |nodes|
      invariant arcs2 == RowArcs(arcs, nodes, a, b, old(m.next))
      invariant m.next == old(m.next) + b && m.log == AppendBools(old(m.log), old(m.next), b)
      invariant m.hints == old(m.hints) && m.objective == old(m.objective)
    {
      var v := m.NewBoolVar();
      arcs2 := arcs2[(nodes[a], nodes[b]) := v];
      b := b + 1;
    }
  }

  /** The number of arcs of a sequence over `n` modes: (n + 1)^2. */
  function ArcCount(n: nat): nat
  {
    (n + 1) * (n + 1)
  }

  /**
   * The sequence of one machine: its mode variables, the arc literals
   * between them (created on activation) and whether it is active.
   */
  class SequenceVar {
    const modeVars: seq<ModeVar>
    var arcs: map<(int, int), Var>
    var isActive: bool

    constructor (modeVars: seq<ModeVar>)
      ensures this.modeVars == modeVars && arcs == map[] && !isActive
    {
      this.modeVars := modeVars;
      arcs := map[];
      isActive := false;
    }

    /**
     * `activate`: a no-op on an active sequence; otherwise it becomes active
     * and gets a fresh Boolean literal for every ordered pair of nodes, in
     * the order of the nested loop (see `ArcsNumbered`).
     */
    method Activate(m: Model)
      modifies this, m
      ensures old(isActive) ==> isActive && arcs == old(arcs) && m.log == old(m.log) && m.next == old(m.next)
      ensures !old(isActive) ==>
        && isActive
        && arcs == Arcs(|modeVars|, old(m.next))
        && m.next == old(m.next) + ArcCount(|modeVars|)
        && m.log == AppendBools(old(m.log), old(m.next), ArcCount(|modeVars|))
      ensures m.hints == old(m.hints) && m.objective == old(m.objective)
    {
      if isActive {
        return;
      }
      var nodes := Nodes(|modeVars|);
      var w := |nodes|;
      ghost var base := m.next;
      ghost var log0 := m.log;
      var newArcs: map<(int, int), Var> := map[];
      var a := 0;
      while a < w
        invariant a <= w
        invariant newArcs == ArcsBefore(nodes, a, base)
        invariant m.next == base + RowStart(a, w) && m.log == AppendBools(log0, base, RowStart(a, w))
        invariant m.hints == old(m.hints) && m.objective == old(m.objective)
      {
        newArcs := AddArcRow(m, nodes, a, newArcs);
        AppendBoolsTwice(log0, base, RowStart(a, w), w);
        a := a + 1;
      }
      isActive := true;
      arcs := newArcs;
      RowStartIsProduct(w, w);
    }
  }

  /** `_make_sequence_variables`: one inactive sequence per machine, over the modes using it. */
  method MakeSequenceVariables(d: SolverData, modeVars: seq<ModeVar>) returns (seqs: map<int, SequenceVar>)
    requires |modeVars| == |d.modes|
    ensures forall r :: r in seqs <==> IsMachine(d, r)
    ensures forall r :: r in seqs ==>
      && fresh(seqs[r]) && !seqs[r].isActive && seqs[r].arcs == map[]
      && seqs[r].modeVars == seq(|Resource2Modes(d, r)|, k requires 0 <= k < |Resource2Modes(d, r)| => modeVars[Resource2Modes(d, r)[k]])
    ensures forall r, s :: r in seqs && s in seqs && r != s ==> seqs[r] != seqs[s]
  {
    seqs := map[];
    var idx := 0;
    while idx < |d.resources|
      invariant idx <= |d.resources|
      invariant forall r :: r in seqs <==> 0 <= r < idx && IsMachine(d, r)
      invariant forall r :: r in seqs ==>
        && fresh(seqs[r]) && !seqs[r].isActive && seqs[r].arcs == map[]
        && seqs[r].modeVars == seq(|Resource2Modes(d, r)|, k requires 0 <= k < |Resource2Modes(d, r)| => modeVars[Resource2Modes(d, r)[k]])
      invariant forall r, s :: r in seqs && s in seqs && r != s ==> seqs[r] != seqs[s]
    {
      if d.resources[idx].MachineRes? {
        var modes := Resource2Modes(d, idx);
        var intervals := seq(|modes|, k requires 0 <= k < |modes| => modeVars[modes[k]]);
        var sv := new SequenceVar(intervals);
        seqs := seqs[idx := sv];
      }
      idx := idx + 1;
    }
  }

  // ---------------------------------------------------------------- warm start

  /** The hints of one job: start = min task start, end = max task end. */
  function JobHints(job: Job, v: JobVar, sol: seq<TaskData>): seq<(Var, int)>
    requires job.tasks != [] && TasksIn(job, |sol|)
  {
    var start := EarliestStart(job.tasks, sol);
    var end := LatestEnd(job.tasks, sol);
    [(v.start, start), (v.duration, end - start), (v.end, end)]
  }

  /** `min(task.start for task in sol_tasks)`. */
  function EarliestStart(tasks: seq<int>, sol: seq<TaskData>): int
    requires tasks != [] && forall k :: 0 <= k < |tasks| ==> 0 <= tasks[k] < |sol|
  {
    var first := sol[tasks[0]].start;
    if |tasks| == 1 then first
    else
      var rest := EarliestStart(tasks[1..], sol);
      if first <= rest then first else rest
  }

  /** `max(task.end for task in sol_tasks)`. */
  function LatestEnd(tasks: seq<int>, sol: seq<TaskData>): int
    requires tasks != [] && forall k :: 0 <= k < |tasks| ==> 0 <= tasks[k] < |sol|
  {
    var first := sol[tasks[0]].end;
    if |tasks| == 1 then first
    else
      var rest := LatestEnd(tasks[1..], sol);
      if first >= rest then first else rest
  }

  /** The earliest start is the start of one of the tasks and no later than any. */
  lemma {:induction false} EarliestStartIsMin(tasks: seq<int>, sol: seq<TaskData>)
    requires tasks != [] && forall k :: 0 <= k < |tasks| ==> 0 <= tasks[k] < |sol|
    ensures forall k :: 0 <= k < |tasks| ==> EarliestStart(tasks, sol) <= sol[tasks[k]].start
    ensures exists k :: 0 <= k < |tasks| && EarliestStart(tasks, sol) == sol[tasks[k]].start
  {
    if |tasks| == 1 {
      assert EarliestStart(tasks, sol) == sol[tasks[0]].start;
    } else {
      EarliestStartIsMin(tasks[1..], sol);
      var i :| 0 <= i < |tasks[1..]| && EarliestStart(tasks[1..], sol) == sol[tasks[1..][i]].start;
      assert tasks[1..][i] == tasks[i + 1];
      forall k | 1 <= k < |tasks|
        ensures EarliestStart(tasks[1..], sol) <= sol[tasks[k]].start
      {
        assert tasks[1..][k - 1] == tasks[k];
      }
      if sol[tasks[0]].start <= EarliestStart(tasks[1..], sol) {
        assert EarliestStart(tasks, sol) == sol[tasks[0]].start;
      } else {
        assert EarliestStart(tasks, sol) == sol[tasks[i + 1]].start;
      }
    }
  }

  /** The latest end is the end of one of the tasks and no earlier than any. */
  lemma {:induction false} LatestEndIsMax(tasks: seq<int>, sol: seq<TaskData>)
    requires tasks != [] && forall k :: 0 <= k < |tasks| ==> 0 <= tasks[k] < |sol|
    ensures forall k :: 0 <= k < |tasks| ==> sol[tasks[k]].end <= LatestEnd(tasks, sol)
    ensures exists k :: 0 <= k < |tasks| && LatestEnd(tasks, sol) == sol[tasks[k]].end
  {
    if |tasks| == 1 {
      assert LatestEnd(tasks, sol) == sol[tasks[0]].end;
    } else {
      LatestEndIsMax(tasks[1..], sol);
      var i :| 0 <= i < |tasks[1..]| && LatestEnd(tasks[1..], sol) == sol[tasks[1..][i]].end;
      assert tasks[1..][i] == tasks[i + 1];
      forall k | 1 <= k < |tasks|
        ensures sol[tasks[k]].end <= LatestEnd(tasks[1..], sol)
      {
        assert tasks[1..][k - 1] == tasks[k];
      }
      if sol[tasks[0]].end >= LatestEnd(tasks[1..], sol) {
        assert LatestEnd(tasks, sol) == sol[tasks[0]].end;
      } else {
        assert LatestEnd(tasks, sol) == sol[tasks[i + 1]].end;
      }
    }
  }

  /** Every task of `job` has an entry among the `n` solution tasks. */
  predicate TasksIn(job: Job, n: nat)
  {
    forall k :: 0 <= k < |job.tasks| ==> 0 <= job.tasks[k] < n
  }

  /** The hints of one task; the presence is hinted only for an optional task. */
  function TaskHints(task: SolverTask, v: TaskVar, t: TaskData): seq<(Var, int)>
    requires v.present.Pos?
  {
    [(v.start, t.start), (v.duration, t.end - t.start), (v.end, t.end)] +
    if task.optional then [(v.present.v, if t.present then 1 else 0)] else []
  }

  /** The hints of mode `idx`: its presence is hinted 1 iff it is the solution's mode. */
  function ModeHints(idx: nat, v: ModeVar, t: TaskData): seq<(Var, int)>
  {
    [(v.start, t.start), (v.duration, t.end - t.start), (v.end, t.end), (v.present, if idx == t.mode then 1 else 0)]
  }

  datatype WarmstartInput = WarmstartInput(
    d: SolverData,
    jobVars: seq<JobVar>,
    taskVars: seq<TaskVar>,
    modeVars: seq<ModeVar>,
    sol: seq<TaskData>)

  /** The shapes `warmstart` relies on: one variable per entity and one solution entry per task. */
  predicate WarmstartShapes(w: WarmstartInput)
  {
    && |w.jobVars| == |w.d.jobs| && |w.taskVars| == |w.d.tasks| && |w.modeVars| == |w.d.modes|
    && |w.sol| == |w.d.tasks|
    && (forall j :: 0 <= j < |w.d.jobs| ==> TasksIn(w.d.jobs[j], |w.sol|))
    && (forall k :: 0 <= k < |w.d.modes| ==> 0 <= w.d.modes[k].task < |w.sol|)
    && (forall k :: 0 <= k < |w.taskVars| ==> w.taskVars[k].present.Pos?)
  }

  predicate JobsHaveTasks(jobs: seq<Job>, n: nat)
    requires n <= |jobs|
  {
    forall k :: 0 <= k < n ==> jobs[k].tasks != []
  }

  /** The first `n` jobs have a variable and tasks, all with a solution entry. */
  predicate JobsHintable(w: WarmstartInput, n: nat)
  {
    && n <= |w.d.jobs| && n <= |w.jobVars|
    && forall k :: 0 <= k < n ==> w.d.jobs[k].tasks != [] && TasksIn(w.d.jobs[k], |w.sol|)
  }

  /** `hints` followed by the hints of the first `n` jobs. */
  function AddJobHints(hints: seq<(Var, int)>, w: WarmstartInput, n: nat): seq<(Var, int)>
    requires JobsHintable(w, n)
  {
    if n == 0 then hints else AddJobHints(hints, w, n - 1) + JobHints(w.d.jobs[n - 1], w.jobVars[n - 1], w.sol)
  }

  /** `hints` followed by the hints of the first `n` tasks. */
  function AddTaskHints(hints: seq<(Var, int)>, w: WarmstartInput, n: nat): seq<(Var, int)>
    requires WarmstartShapes(w) && n <= |w.d.tasks|
  {
    if n == 0 then hints else AddTaskHints(hints, w, n - 1) + TaskHints(w.d.tasks[n - 1], w.taskVars[n - 1], w.sol[n - 1])
  }

  /** `hints` followed by the hints of the first `n` modes. */
  function AddModeHints(hints: seq<(Var, int)>, w: WarmstartInput, n: nat): seq<(Var, int)>
    requires WarmstartShapes(w) && n <= |w.d.modes|
  {
    if n == 0 then hints
    else AddModeHints(hints, w, n - 1) + ModeHints(n - 1, w.modeVars[n - 1], w.sol[w.d.modes[n - 1].task])
  }

  /** All hints of a warm start, in the order they are added: jobs, tasks, modes. */
  function WarmstartHints(w: WarmstartInput): seq<(Var, int)>
    requires WarmstartShapes(w) && JobsHaveTasks(w.d.jobs, |w.d.jobs|)
  {
    AddModeHints(AddTaskHints(AddJobHints([], w, |w.d.jobs|), w, |w.d.tasks|), w, |w.d.modes|)
  }

  /**
   * `warmstart`: clears the old hints, then hints jobs, tasks and modes. The
   * min/max over the tasks of a job without tasks raises, which is the error
   * path: the index of the first such job.
   */
  method Warmstart(m: Model, w: WarmstartInput) returns (r: Result<(), nat>)
    requires WarmstartShapes(w)
    modifies m
    ensures r.Ok? <==> JobsHaveTasks(w.d.jobs, |w.d.jobs|)
    ensures r.Err? ==> r.error < |w.d.jobs| && w.d.jobs[r.error].tasks == [] && JobsHaveTasks(w.d.jobs, r.error)
    ensures r.Ok? ==> m.hints == WarmstartHints(w)
    ensures m.log == old(m.log) && m.next == old(m.next) && m.objective == old(m.objective)
  {
    m.ClearHints();
    var empty := FirstJobWithoutTasks(w.d.jobs, |w.d.jobs|);
    if empty.Some? {
      return Err(empty.value);
    }
    HintJobs(m, w);
    HintTasks(m, w);
    HintModes(m, w);
    r := Ok(());
  }

  /** The first of the first `n` jobs without tasks: the job whose `min` raises. */
  function FirstJobWithoutTasks(jobs: seq<Job>, n: nat): (r: Option<nat>)
    requires n <= |jobs|
    ensures r.None? <==> JobsHaveTasks(jobs, n)
    ensures r.Some? ==> r.value < n && jobs[r.value].tasks == [] && JobsHaveTasks(jobs, r.value)
  {
    if n == 0 then None
    else
      var prefix := FirstJobWithoutTasks(jobs, n - 1);
      if prefix.Some? then prefix
      else if jobs[n - 1].tasks == [] then Some(n - 1)
      else None
  }

  /** The job loop of `warmstart`, once every job is known to have a task. */
  method HintJobs(m: Model, w: WarmstartInput)
    requires JobsHintable(w, |w.d.jobs|)
    modifies m
    ensures m.hints == AddJobHints(old(m.hints), w, |w.d.jobs|)
    ensures m.log == old(m.log) && m.next == old(m.next) && m.objective == old(m.objective)
  {
    var idx := 0;
    while idx < |w.d.jobs|
      invariant idx <= |w.d.jobs|
      invariant m.hints == AddJobHints(old(m.hints), w, idx)
      invariant m.log == old(m.log) && m.next == old(m.next) && m.objective == old(m.objective)
    {
      ghost var before := m.hints;
      HintJob(m, w.d.jobs[idx], w.jobVars[idx], w.sol);
      assert AddJobHints(old(m.hints), w, idx + 1) == before + JobHints(w.d.jobs[idx], w.jobVars[idx], w.sol);
      idx := idx + 1;
    }
  }

  /** The body of the job loop of `warmstart`: start, duration and end of one job. */
  method HintJob(m: Model, job: Job, v: JobVar, sol: seq<TaskData>)
    requires job.tasks != [] && TasksIn(job, |sol|)
    modifies m
    ensures m.hints == old(m.hints) + JobHints(job, v, sol)
    ensures m.log == old(m.log) && m.next == old(m.next) && m.objective == old(m.objective)
  {
    var jobStart := EarliestStart(job.tasks, sol);
    var jobEnd := LatestEnd(job.tasks, sol);
    m.AddHint(v.start, jobStart);
    m.AddHint(v.duration, jobEnd - jobStart);
    m.AddHint(v.end, jobEnd);
  }

  /** The task loop of `warmstart`. */
  method HintTasks(m: Model, w: WarmstartInput)
    requires WarmstartShapes(w)
    modifies m
    ensures m.hints == AddTaskHints(old(m.hints), w, |w.d.tasks|)
    ensures m.log == old(m.log) && m.next == old(m.next) && m.objective == old(m.objective)
  {
    var idx := 0;
    while idx < |w.d.tasks|
      invariant idx <= |w.d.tasks|
      invariant m.hints == AddTaskHints(old(m.hints), w, idx)
      invariant m.log == old(m.log) && m.next == old(m.next) && m.objective == old(m.objective)
    {
      var taskVar := w.taskVars[idx];
      var solTask := w.sol[idx];
      ghost var before := m.hints;
      m.AddHint(taskVar.start, solTask.start);
      m.AddHint(taskVar.duration, solTask.end - solTask.start);
      m.AddHint(taskVar.end, solTask.end);
      if w.d.tasks[idx].optional {
        m.AddHint(taskVar.present.v, if solTask.present then 1 else 0);
      }
      assert m.hints == before + TaskHints(w.d.tasks[idx], taskVar, solTask);
      assert AddTaskHints(old(m.hints), w, idx + 1) == before + TaskHints(w.d.tasks[idx], taskVar, solTask);
      idx := idx + 1;
    }
  }

  /** The mode loop of `warmstart`. */
  method HintModes(m: Model, w: WarmstartInput)
    requires WarmstartShapes(w)
    modifies m
    ensures m.hints == AddModeHints(old(m.hints), w, |w.d.modes|)
    ensures m.log == old(m.log) && m.next == old(m.next) && m.objective == old(m.objective)
  {
    var idx := 0;
    while idx < |w.d.modes|
      invariant idx <= |w.d.modes|
      invariant m.hints == AddModeHints(old(m.hints), w, idx)
      invariant m.log == old(m.log) && m.next == old(m.next) && m.objective == old(m.objective)
    {
      var v := w.modeVars[idx];
      var solTask := w.sol[w.d.modes[idx].task];
      ghost var before := m.hints;
      m.AddHint(v.start, solTask.start);
      m.AddHint(v.duration, solTask.end - solTask.start);
      m.AddHint(v.end, solTask.end);
      m.AddHint(v.present, if idx == solTask.mode then 1 else 0);
      assert m.hints == before + ModeHints(idx, v, solTask);
      assert AddModeHints(old(m.hints), w, idx + 1) == before + ModeHints(idx, v, solTask);
      idx := idx + 1;
    }
  }

  /**
   * The job hints: the start is the earliest start of the job's tasks in the
   * solution, the end the latest end, and the duration their difference.
   */
  lemma {:induction false} JobHintsSpan(job: Job, v: JobVar, sol: seq<TaskData>)
    requires job.tasks != [] && TasksIn(job, |sol|)
    ensures var h := JobHints(job, v, sol);
            && h[0].0 == v.start && h[1].0 == v.duration && h[2].0 == v.end
            && h[1].1 == h[2].1 - h[0].1
            && (forall k :: 0 <= k < |job.tasks| ==> h[0].1 <= sol[job.tasks[k]].start && sol[job.tasks[k]].end <= h[2].1)
            && (exists k :: 0 <= k < |job.tasks| && h[0].1 == sol[job.tasks[k]].start)
            && (exists k :: 0 <= k < |job.tasks| && h[2].1 == sol[job.tasks[k]].end)
  {
    EarliestStartIsMin(job.tasks, sol);
    LatestEndIsMax(job.tasks, sol);
  }

  /**
   * A task's presence is hinted only when the task is optional: the hints of
   * a task name its presence literal iff it is optional.
   */
  lemma {:induction false} TaskHintsPresence(task: SolverTask, v: TaskVar, t: TaskData)
    requires v.present.Pos? && v.present.v != v.start && v.present.v != v.duration && v.present.v != v.end
    ensures var h := TaskHints(task, v, t);
            && |h| == (if task.optional then 4 else 3)
            && ((exists k :: 0 <= k < |h| && h[k].0 == v.present.v) <==> task.optional)
            && (task.optional ==> h[3] == (v.present.v, if t.present then 1 else 0))
  {
    var h := TaskHints(task, v, t);
    if task.optional {
      assert h[3].0 == v.present.v;
    }
  }

  /** A mode's presence hint is 1 exactly for the solution's mode of its task. */
  lemma {:induction false} ModeHintPresence(idx: nat, v: ModeVar, t: TaskData)
    ensures var h := ModeHints(idx, v, t);
            && |h| == 4 && h[3].0 == v.present
            && (h[3].1 == 1 <==> idx == t.mode) && (h[3].1 == 0 <==> idx != t.mode)
  {
  }
}
