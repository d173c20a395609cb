/**
 * The constraint builders of the CP Optimizer back end
 * (`pyjobshop/solvers/cpoptimizer/Constraints.py`). Each `_...` builder is a
 * method here that appends records to the model's log; a function of the
 * inputs states exactly which records, in which order, and lemmas state what
 * a valuation satisfying them means for the schedule.
 */
module CpoConstraints {
  import opened Wrappers
  import opened ProblemData
  import opened Constraints
  import opened SolverUtils
  import opened SolverData
  import opened CpoLog
  import opened CpoVariables
  import CpLog
  import OrConstraints

  // ----------------------------------------------------------------- inputs

  type Timing = OrConstraints.Timing

  /** The constraint lists this back end reads. */
  datatype CpoConstraintData = CpoConstraintData(
    startBeforeStart: seq<Timing>,
    startBeforeEnd: seq<Timing>,
    endBeforeStart: seq<Timing>,
    endBeforeEnd: seq<Timing>,
    identicalResources: seq<(nat, nat)>,
    differentResources: seq<(nat, nat)>,
    /** `(idx1, idcs2)`: if task `idx1` is present, one of `idcs2` is. */
    ifThen: seq<(nat, seq<nat>)>,
    /** `(idx1, idx2, machine)`: task `idx2` directly follows task `idx1` on `machine`. */
    consecutive: seq<(nat, nat, nat)>,
    setupTimes: seq<SetupTime>)

  /** The variables have one entry per job, task and mode. */
  predicate Sized(d: SolverData, v: Vars)
  {
    && Indexed(d)
    && |v.jobs| == |d.jobs| && |v.tasks| == |d.tasks| && |v.modes| == |d.modes|
  }

  /** Every machine has its sequence. */
  ghost predicate HasSequences(d: SolverData, v: Vars)
  {
    forall r :: IsMachine(d, r) ==> r in v.sequences
  }

  /** What `Variables` establishes about the variables beyond their number. */
  ghost predicate Built(d: SolverData, v: Vars)
  {
    && Sized(d, v) && HasSequences(d, v)
    && (forall j :: 0 <= j < |d.jobs| ==> v.jobs[j].optional == AllOptional(d, d.jobs[j].tasks))
    && (forall t :: 0 <= t < |d.tasks| ==> v.tasks[t].optional == d.tasks[t].optional)
    && (forall k :: 0 <= k < |d.modes| ==> v.modes[k].optional)
    && forall r :: IsMachine(d, r) ==> v.sequences[r] == SequenceOf(d, v.modes, r)
  }

  /** The variables `Variables.__init__` makes are built in this sense. */
  lemma {:induction false} VarsOfBuilt(d: SolverData, base: nat)
    requires Indexed(d)
    ensures Built(d, VarsOf(d, base))
  {
    var mbase := base + |d.jobs| + |d.tasks|;
    var v := VarsOf(d, base);
    assert v.jobs == JobVars(d, base, |d.jobs|) && v.tasks == TaskVars(d, base + |d.jobs|, |d.tasks|);
    assert v.modes == ModeVars(mbase, |d.modes|);
    SequenceKeys(d, ModeVars(mbase, |d.modes|));
  }

  /** Every timing, if-then and consecutive constraint names existing tasks and a machine. */
  predicate ConstraintsIn(d: SolverData, c: CpoConstraintData)
  {
    && TimingsIn(c.startBeforeStart, |d.tasks|) && TimingsIn(c.startBeforeEnd, |d.tasks|)
    && TimingsIn(c.endBeforeStart, |d.tasks|) && TimingsIn(c.endBeforeEnd, |d.tasks|)
    && (forall k :: 0 <= k < |c.ifThen| ==> IfThenIn(c.ifThen[k], |d.tasks|))
    && ConsecutiveIn(d, c.consecutive)
  }

  predicate TimingsIn(cs: seq<Timing>, n: nat)
  {
    forall k :: 0 <= k < |cs| ==> cs[k].task1 < n && cs[k].task2 < n
  }

  predicate IfThenIn(c: (nat, seq<nat>), n: nat)
  {
    c.0 < n && forall i :: 0 <= i < |c.1| ==> c.1[i] < n
  }

  // ------------------------------------------------------- presence sums

  /** `presence_of` of each variable, in order. */
  function Presences(xs: seq<IntervalVar>): (r: seq<CExpr>)
    ensures |r| == |xs|
  {
    seq(|xs|, k requires 0 <= k < |xs| => PresenceExpr(xs[k]))
  }

  /** The number of present variables among `xs`. */
  function PresentCount(xs: seq<IntervalVar>, val: Valuation): nat
  {
    if xs == [] then 0 else PresentCount(xs[..|xs| - 1], val) + (if Present(val, xs[|xs| - 1].id) then 1 else 0)
  }

  /** The summed presences count the present variables. */
  lemma {:induction false} PresencesTotal(xs: seq<IntervalVar>, val: Valuation)
    requires RespectsOptional(xs, val)
    ensures Total(Presences(xs), val) == PresentCount(xs, val)
  {
    if xs != [] {
      var init := xs[..|xs| - 1];
      assert Presences(xs)[..|xs| - 1] == Presences(init);
      PresencesTotal(init, val);
      PresenceMeaning(xs[|xs| - 1], val);
    }
  }

  /** Some variable is present exactly when the count is positive. */
  lemma {:induction false} PresentCountPositive(xs: seq<IntervalVar>, val: Valuation)
    ensures PresentCount(xs, val) > 0 <==> exists k :: 0 <= k < |xs| && Present(val, xs[k].id)
  {
    if xs != [] {
      var init := xs[..|xs| - 1];
      PresentCountPositive(init, val);
      if exists k :: 0 <= k < |init| && Present(val, init[k].id) {
        var k :| 0 <= k < |init| && Present(val, init[k].id);
        assert xs[k] == init[k];
      }
      if exists k :: 0 <= k < |xs| && Present(val, xs[k].id) {
        var k :| 0 <= k < |xs| && Present(val, xs[k].id);
        if k < |init| {
          assert init[k] == xs[k];
        }
      }
    }
  }

  /** `presence_of(x) <= sum(presence_of(y) for y in ys)`: if `x` is present, one of `ys` is. */
  lemma {:induction false} PresenceImplies(x: IntervalVar, ys: seq<IntervalVar>, val: Valuation)
    requires (!x.optional ==> Present(val, x.id)) && RespectsOptional(ys, val)
    requires Eval(PresenceExpr(x), val) <= Eval(Sum(Presences(ys)), val)
    ensures Present(val, x.id) ==> exists k :: 0 <= k < |ys| && Present(val, ys[k].id)
  {
    PresenceMeaning(x, val);
    PresencesTotal(ys, val);
    PresentCountPositive(ys, val);
  }

  // ---------------------------------------------------------- job spans

  /** The task variables of a job's tasks, in the job's order. */
  function TaskIds(v: Vars, tasks: seq<int>): (r: seq<IVar>)
    requires forall k :: 0 <= k < |tasks| ==> 0 <= tasks[k] < |v.tasks|
    ensures |r| == |tasks|
  {
    seq(|tasks|, k requires 0 <= k < |tasks| => v.tasks[tasks[k]].id)
  }

  /** The number of jobs among the first `n` whose tasks are all optional: the dummies made for them. */
  function Dummies(d: SolverData, n: nat): nat
    requires Indexed(d) && n <= |d.jobs|
  {
    if n == 0 then 0 else Dummies(d, n - 1) + (if AllOptional(d, d.jobs[n - 1].tasks) then 1 else 0)
  }

  /** The intervals job `idx` spans: its tasks' variables, then the dummy when all its tasks are optional. */
  function JobParts(d: SolverData, v: Vars, idx: nat, dummy: nat): seq<IVar>
    requires Sized(d, v) && idx < |d.jobs|
  {
    var parts := TaskIds(v, d.jobs[idx].tasks);
    if AllOptional(d, d.jobs[idx].tasks) then parts + [dummy] else parts
  }

  /** `interval_var(name="dummy")`: an always-present interval without bounds, variable number `dummy`. */
  function DummyRecord(dummy: nat): Record
  {
    Interval(IntervalVar(dummy, false), "dummy", NoBounds())
  }

  /**
   * The records for job `idx`: the dummy when it has one, then `span(job, parts)`;
   * the dummies of the jobs before it are numbered from `next0`.
   */
  function JobSpanBlock(d: SolverData, v: Vars, next0: nat, idx: nat): seq<Record>
    requires Sized(d, v) && idx < |d.jobs|
  {
    var dummy := next0 + Dummies(d, idx);
    var span := Span(v.jobs[idx].id, JobParts(d, v, idx, dummy));
    if AllOptional(d, d.jobs[idx].tasks) then [DummyRecord(dummy), span] else [span]
  }

  /** The blocks of the first `n` jobs, each with its dummy numbered from `next0`. */
  function JobSpanBlocks(d: SolverData, v: Vars, next0: nat, n: nat): (r: seq<seq<Record>>)
    requires Sized(d, v) && n <= |d.jobs|
    ensures |r| == n && forall j {:trigger r[j]} :: 0 <= j < n ==> r[j] == JobSpanBlock(d, v, next0, j)
  {
    seq(n, j requires 0 <= j < n => JobSpanBlock(d, v, next0, j))
  }

  /** The records of `_job_spans_tasks` for the first `n` jobs, with variables numbered from `next0`. */
  function JobSpanRecords(d: SolverData, v: Vars, next0: nat, n: nat): seq<Record>
    requires Sized(d, v) && n <= |d.jobs|
  {
    if n == 0 then [] else JobSpanRecords(d, v, next0, n - 1) + JobSpanBlock(d, v, next0, n - 1)
  }

  /** The records are the blocks laid end to end. */
  lemma {:induction false} JobSpanFlat(d: SolverData, v: Vars, next0: nat, n: nat)
    requires Sized(d, v) && n <= |d.jobs|
    ensures JobSpanRecords(d, v, next0, n) == CpLog.Flatten(JobSpanBlocks(d, v, next0, n))
  {
    if n > 0 {
      JobSpanFlat(d, v, next0, n - 1);
      assert JobSpanBlocks(d, v, next0, n)[..n - 1] == JobSpanBlocks(d, v, next0, n - 1);
    }
  }

  /** The records of job `j` are among those of the first `n > j` jobs. */
  lemma JobSpanBlockIn(d: SolverData, v: Vars, next0: nat, n: nat, j: nat, x: Record)
    requires Sized(d, v) && n <= |d.jobs| && j < n && x in JobSpanBlock(d, v, next0, j)
    ensures x in JobSpanRecords(d, v, next0, n)
  {
    JobSpanFlat(d, v, next0, n);
    CpLog.FlattenMember(JobSpanBlocks(d, v, next0, n), j, x);
  }

  lemma JobSpanNext(d: SolverData, v: Vars, next0: nat, n: nat)
    requires Sized(d, v) && n < |d.jobs|
    ensures JobSpanRecords(d, v, next0, n + 1) == JobSpanRecords(d, v, next0, n) + JobSpanBlock(d, v, next0, n)
  {
  }


  /** One more job adds a dummy exactly when all its tasks are optional. */
  lemma DummiesStep(d: SolverData, m: nat, n: nat)
    requires Indexed(d) && n == m + 1 <= |d.jobs|
    ensures Dummies(d, n) == Dummies(d, m) + (if AllOptional(d, d.jobs[m].tasks) then 1 else 0)
  {
  }

  /** `_job_spans_tasks`. */
  method JobSpansTasks(m: Model, d: SolverData, v: Vars)
    requires Sized(d, v)
    modifies m
    ensures m.log == old(m.log) + JobSpanRecords(d, v, old(m.next), |d.jobs|)
    ensures m.next == old(m.next) + Dummies(d, |d.jobs|)
    ensures m.startingPoint == old(m.startingPoint)
  {
    ghost var log0, next0 := m.log, m.next;
    var idx: nat := 0;
    while idx < |d.jobs|
      invariant idx <= |d.jobs|
      invariant m.log == log0 + JobSpanRecords(d, v, next0, idx)
      invariant m.next == next0 + Dummies(d, idx)
      invariant m.startingPoint == old(m.startingPoint)
    {
      AddJobSpan(m, d, v, idx, next0, log0);
      idx := idx + 1;
    }
  }

  /** The body of the loop of `_job_spans_tasks` for job `idx`. */
  method AddJobSpan(m: Model, d: SolverData, v: Vars, idx: nat, ghost next0: nat, ghost log0: seq<Record>)
    requires Sized(d, v) && idx < |d.jobs|
    requires m.log == log0 + JobSpanRecords(d, v, next0, idx) && m.next == next0 + Dummies(d, idx)
    modifies m
    ensures m.log == log0 + JobSpanRecords(d, v, next0, idx + 1) && m.next == next0 + Dummies(d, idx + 1)
    ensures m.startingPoint == old(m.startingPoint)
  {
    JobSpanNext(d, v, next0, idx);
    DummiesStep(d, idx, idx + 1);
    ghost var before := m.log;
    ghost var block := JobSpanBlock(d, v, next0, idx);
    var job := d.jobs[idx];
    var taskVars := TaskIds(v, job.tasks);
    if AllOptional(d, job.tasks) {
      var dummy := m.NewInterval(false, "dummy", NoBounds());
      taskVars := taskVars + [dummy.id];
      m.Add(Span(v.jobs[idx].id, taskVars));
      assert m.log == before + block;
    } else {
      m.Add(Span(v.jobs[idx].id, taskVars));
      assert m.log == before + block;
    }
    CpLog.AppendAssoc(log0, JobSpanRecords(d, v, next0, idx), block);
    assert m.log == log0 + (JobSpanRecords(d, v, next0, idx) + block);
  }

  /** A satisfied log of job spans satisfies job `j`'s span, and its dummy is present. */
  lemma {:induction false} JobSpanHolds(d: SolverData, v: Vars, next0: nat, val: Valuation, j: nat)
    requires Sized(d, v) && j < |d.jobs| && Satisfies(JobSpanRecords(d, v, next0, |d.jobs|), val)
    ensures SpanHolds(v.jobs[j].id, JobParts(d, v, j, next0 + Dummies(d, j)), val)
    ensures AllOptional(d, d.jobs[j].tasks) ==> Present(val, next0 + Dummies(d, j))
  {
    var dummy := next0 + Dummies(d, j);
    var span := Span(v.jobs[j].id, JobParts(d, v, j, dummy));
    JobSpanBlockIn(d, v, next0, |d.jobs|, j, span);
    SatisfiesMember(JobSpanRecords(d, v, next0, |d.jobs|), span, val);
    if AllOptional(d, d.jobs[j].tasks) {
      JobSpanBlockIn(d, v, next0, |d.jobs|, j, DummyRecord(dummy));
      SatisfiesMember(JobSpanRecords(d, v, next0, |d.jobs|), DummyRecord(dummy), val);
    }
  }

  /**
   * Once the task variables' optional flags are respected, a satisfied span
   * makes every job present (through the dummy when all its tasks are
   * optional) and every present task lies within its job.
   */
  lemma {:induction false} JobSpanMeaning(d: SolverData, v: Vars, next0: nat, val: Valuation, j: nat)
    requires Built(d, v) && j < |d.jobs|
    requires RespectsOptional(v.tasks, val) && Satisfies(JobSpanRecords(d, v, next0, |d.jobs|), val)
    ensures Present(val, v.jobs[j].id)
    ensures forall i :: 0 <= i < |d.jobs[j].tasks| && Present(val, v.tasks[d.jobs[j].tasks[i]].id) ==>
              var task := val(v.tasks[d.jobs[j].tasks[i]].id);
              val(v.jobs[j].id).start <= task.start && task.end <= val(v.jobs[j].id).end
  {
    var dummy := next0 + Dummies(d, j);
    var job := d.jobs[j];
    var all := JobParts(d, v, j, dummy);
    JobSpanHolds(d, v, next0, val, j);
    AllOptionalMeaning(d, job.tasks);
    if AllOptional(d, job.tasks) {
      assert all[|job.tasks|] == dummy;
    } else {
      var k :| 0 <= k < |job.tasks| && !d.tasks[job.tasks[k]].optional;
      assert all[k] == v.tasks[job.tasks[k]].id;
    }
    forall i | 0 <= i < |job.tasks| && Present(val, v.tasks[job.tasks[i]].id)
      ensures val(v.jobs[j].id).start <= val(v.tasks[job.tasks[i]].id).start
              && val(v.tasks[job.tasks[i]].id).end <= val(v.jobs[j].id).end
    {
      assert all[i] == v.tasks[job.tasks[i]].id;
    }
  }

  // ----------------------------------------------------------- alternatives

  /** The mode variables of the listed modes, in order. */
  function ModeVarsAt(v: Vars, modes: seq<nat>): (r: seq<IntervalVar>)
    requires forall k :: 0 <= k < |modes| ==> modes[k] < |v.modes|
    ensures |r| == |modes|
  {
    seq(|modes|, k requires 0 <= k < |modes| => v.modes[modes[k]])
  }

  function ModeIds(v: Vars, modes: seq<nat>): (r: seq<IVar>)
    requires forall k :: 0 <= k < |modes| ==> modes[k] < |v.modes|
    ensures |r| == |modes|
  {
    seq(|modes|, k requires 0 <= k < |modes| => v.modes[modes[k]].id)
  }

  /** `alternative(task, modes of task)`. */
  function AlternativeRecord(d: SolverData, v: Vars, t: nat): Record
    requires Sized(d, v) && t < |d.tasks|
  {
    Alternative(v.tasks[t].id, ModeIds(v, Task2Modes(d, t)))
  }

  /** The records of `_select_one_mode` for the first `n` tasks. */
  function AlternativeRecords(d: SolverData, v: Vars, n: nat): (r: seq<Record>)
    requires Sized(d, v) && n <= |d.tasks|
    ensures |r| == n
  {
    seq(n, t requires 0 <= t < n => AlternativeRecord(d, v, t))
  }

  /** `_select_one_mode`. */
  method SelectOneMode(m: Model, d: SolverData, v: Vars)
    requires Sized(d, v)
    modifies m
    ensures m.log == old(m.log) + AlternativeRecords(d, v, |d.tasks|)
    ensures m.next == old(m.next) && m.startingPoint == old(m.startingPoint)
  {
    ghost var log0 := m.log;
    var task := 0;
    while task < |d.tasks|
      invariant task <= |d.tasks|
      invariant m.log == log0 + AlternativeRecords(d, v, task)
      invariant m.next == old(m.next) && m.startingPoint == old(m.startingPoint)
    {
      var modeVars := ModeIds(v, Task2Modes(d, task));
      m.Add(Alternative(v.tasks[task].id, modeVars));
      assert AlternativeRecords(d, v, task + 1) == AlternativeRecords(d, v, task) + [AlternativeRecord(d, v, task)];
      task := task + 1;
    }
  }

  /**
   * Under the alternatives, a task is present exactly when one of its modes
   * is; a present mode of the task has the task's start and end, and no two
   * modes of a task are present together.
   */
  lemma {:induction false} AlternativeMeaning(d: SolverData, v: Vars, val: Valuation, t: nat)
    requires Sized(d, v) && t < |d.tasks| && Satisfies(AlternativeRecords(d, v, |d.tasks|), val)
    ensures Present(val, v.tasks[t].id) <==>
              exists k :: 0 <= k < |d.modes| && d.modes[k].task == t && Present(val, v.modes[k].id)
    ensures forall k :: 0 <= k < |d.modes| && d.modes[k].task == t && Present(val, v.modes[k].id) ==>
              val(v.modes[k].id).start == val(v.tasks[t].id).start && val(v.modes[k].id).end == val(v.tasks[t].id).end
    ensures forall k1, k2 ::
              (&& 0 <= k1 < |d.modes| && 0 <= k2 < |d.modes| && d.modes[k1].task == t && d.modes[k2].task == t
               && Present(val, v.modes[k1].id) && Present(val, v.modes[k2].id)) ==> k1 == k2
  {
    var modes := Task2Modes(d, t);
    var alts := ModeIds(v, modes);
    assert Holds(AlternativeRecords(d, v, |d.tasks|)[t], val);
    assert AlternativeHolds(v.tasks[t].id, alts, val);
    forall k | 0 <= k < |d.modes| && d.modes[k].task == t
      ensures exists i :: 0 <= i < |modes| && modes[i] == k && alts[i] == v.modes[k].id
    {
      assert k in modes;
      var i :| 0 <= i < |modes| && modes[i] == k;
      assert alts[i] == v.modes[k].id;
    }
    if Present(val, v.tasks[t].id) {
      var i :| 0 <= i < |alts| && Present(val, alts[i])
               && val(alts[i]).start == val(v.tasks[t].id).start && val(alts[i]).end == val(v.tasks[t].id).end
               && forall j :: 0 <= j < |alts| && j != i ==> !Present(val, alts[j]);
      assert d.modes[modes[i]].task == t && Present(val, v.modes[modes[i]].id);
      forall k | 0 <= k < |d.modes| && d.modes[k].task == t && Present(val, v.modes[k].id)
        ensures k == modes[i]
      {
        var i2 :| 0 <= i2 < |modes| && modes[i2] == k && alts[i2] == v.modes[k].id;
        assert i2 == i;
      }
    }
  }

  // -------------------------------------------------- no-overlap and setups

  /** The tasks of the modes that use resource `r`, in mode order: the types of its sequence. */
  function MachineTasks(d: SolverData, r: int): (ts: seq<int>)
    ensures |ts| == |Resource2Modes(d, r)|
  {
    var modes := Resource2Modes(d, r);
    seq(|modes|, k requires 0 <= k < |modes| => d.modes[modes[k]].task)
  }

  /** `np.any(matrix > 0)`. */
  predicate AnyPositive(matrix: seq<seq<int>>)
  {
    exists a, b :: 0 <= a < |matrix| && 0 <= b < |matrix[a]| && matrix[a][b] > 0
  }

  /**
   * `setup_times[idx, :, :][np.ix_(tasks, tasks)]`: row `a` and column `b`
   * hold the setup time from `tasks[a]` to `tasks[b]`, so the matrix is
   * indexed by position in `tasks`.
   */
  function Submatrix(setupTimes: seq<SetupTime>, r: int, tasks: seq<int>): (mx: seq<seq<int>>)
    ensures |mx| == |tasks| && forall a :: 0 <= a < |tasks| ==> |mx[a]| == |tasks|
  {
    seq(|tasks|, a requires 0 <= a < |tasks| =>
      seq(|tasks|, b requires 0 <= b < |tasks| => LastSetup(setupTimes, r, tasks[a], tasks[b])))
  }

  /** The matrix `_machines_no_overlap_and_setup_times` passes for machine `r`, as written. */
  function MatrixAsWritten(setupTimes: seq<SetupTime>, r: int, tasks: seq<int>): Option<seq<seq<int>>>
  {
    if setupTimes == [] then None
    else
      var mx := Submatrix(setupTimes, r, tasks);
      if AnyPositive(mx) then Some(mx) else None
  }

  /** Machine `r`'s whole task-by-task setup matrix. */
  function SetupMatrix(setupTimes: seq<SetupTime>, r: int, numTasks: nat): (mx: seq<seq<int>>)
    ensures |mx| == numTasks && forall a :: 0 <= a < numTasks ==> |mx[a]| == numTasks
  {
    seq(numTasks, a requires 0 <= a < numTasks =>
      seq(numTasks, b requires 0 <= b < numTasks => LastSetup(setupTimes, r, a, b)))
  }

  /**
   * The matrix for machine `r`, indexed by task as the sequence's types
   * are: the machine's whole matrix, or none when there are no setup times
   * or none of the machine's task pairs has a positive one.
   */
  function MachineMatrix(d: SolverData, c: CpoConstraintData, r: int): Option<seq<seq<int>>>
  {
    if c.setupTimes == [] then None
    else if AnyPositive(Submatrix(c.setupTimes, r, MachineTasks(d, r))) then Some(SetupMatrix(c.setupTimes, r, |d.tasks|))
    else None
  }

  /** A sequence of task types and a 2 x 2 matrix where the as-written slice misreads the setup time. */
  lemma SubmatrixMisindexed()
    ensures var setupTimes := [SetupTime(0, 1, 0, 5)];
            var tasks := [1, 0];
            && MatrixAsWritten(setupTimes, 0, tasks) == Some(Submatrix(setupTimes, 0, tasks))
            && Distance(MatrixAsWritten(setupTimes, 0, tasks), tasks, 0, 1) == 0
            && LastSetup(setupTimes, 0, tasks[0], tasks[1]) == 5
  {
    var setupTimes := [SetupTime(0, 1, 0, 5)];
    var mx := Submatrix(setupTimes, 0, [1, 0]);
    assert mx[0][1] == 5;
    assert mx[1][0] == LastSetup(setupTimes, 0, 0, 1);
    assert LastSetup(setupTimes[..0], 0, 0, 1) == 0;
  }

  /** A task index past the slice's size leaves the types outside the as-written matrix. */
  lemma SubmatrixTooSmall()
    ensures var setupTimes := [SetupTime(0, 1, 2, 5)];
            var tasks := [1, 2];
            && MatrixAsWritten(setupTimes, 0, tasks) == Some(Submatrix(setupTimes, 0, tasks))
            && !TypesIndex(Submatrix(setupTimes, 0, tasks), tasks)
  {
    var setupTimes := [SetupTime(0, 1, 2, 5)];
    var mx := Submatrix(setupTimes, 0, [1, 2]);
    assert mx[0][1] == 5;
    assert [1, 2][1] == 2;
  }

  /** Setup-time records carry no negative duration, as validated problem data has it. */
  predicate SetupsNonNegative(c: CpoConstraintData)
  {
    forall k :: 0 <= k < |c.setupTimes| ==> c.setupTimes[k].duration >= 0
  }

  lemma {:induction false} LastSetupNonNegative(setupTimes: seq<SetupTime>, r: int, a: int, b: int)
    requires forall k :: 0 <= k < |setupTimes| ==> setupTimes[k].duration >= 0
    ensures LastSetup(setupTimes, r, a, b) >= 0
  {
    if setupTimes != [] {
      LastSetupNonNegative(setupTimes[..|setupTimes| - 1], r, a, b);
    }
  }

  /**
   * With the corrected matrix the distance between two positions of machine
   * `r`'s sequence is the setup time between their tasks.
   */
  lemma {:induction false} MachineDistance(d: SolverData, c: CpoConstraintData, r: int, i: nat, j: nat)
    requires Indexed(d) && SetupsNonNegative(c)
    requires i < |MachineTasks(d, r)| && j < |MachineTasks(d, r)|
    ensures var ts := MachineTasks(d, r);
            Distance(MachineMatrix(d, c, r), ts, i, j) == LastSetup(c.setupTimes, r, ts[i], ts[j])
    ensures MachineMatrix(d, c, r).Some? ==> TypesIndex(MachineMatrix(d, c, r).value, MachineTasks(d, r))
  {
    MachineTasksIn(d, r);
    if MachineMatrix(d, c, r).None? {
      NoMatrixDistance(d, c, r, i, j);
    } else {
      MatrixDistance(d, c, r, i, j);
    }
  }

  /** The tasks on machine `r` are tasks of the data. */
  lemma MachineTasksIn(d: SolverData, r: int)
    requires Indexed(d)
    ensures var ts := MachineTasks(d, r);
            forall k :: 0 <= k < |ts| ==> 0 <= ts[k] < |d.tasks|
  {
    var ts := MachineTasks(d, r);
    var modes := Resource2Modes(d, r);
    forall k | 0 <= k < |ts| ensures 0 <= ts[k] < |d.tasks| {
      assert ts[k] == d.modes[modes[k]].task;
    }
  }

  /** Without a matrix every setup time between the machine's tasks is zero. */
  lemma NoMatrixDistance(d: SolverData, c: CpoConstraintData, r: int, i: nat, j: nat)
    requires SetupsNonNegative(c) && MachineMatrix(d, c, r).None?
    requires i < |MachineTasks(d, r)| && j < |MachineTasks(d, r)|
    ensures var ts := MachineTasks(d, r);
            LastSetup(c.setupTimes, r, ts[i], ts[j]) == 0
  {
    var ts := MachineTasks(d, r);
    LastSetupNonNegative(c.setupTimes, r, ts[i], ts[j]);
    if c.setupTimes != [] {
      var sub := Submatrix(c.setupTimes, r, ts);
      assert sub[i][j] == LastSetup(c.setupTimes, r, ts[i], ts[j]);
      assert !AnyPositive(sub);
    } else {
      assert LastSetup(c.setupTimes, r, ts[i], ts[j]) == 0;
    }
  }

  /** With the whole matrix, the machine's tasks index it and its entries are the setup times. */
  lemma MatrixDistance(d: SolverData, c: CpoConstraintData, r: int, i: nat, j: nat)
    requires MachineMatrix(d, c, r).Some?
    requires var ts := MachineTasks(d, r);
             forall k :: 0 <= k < |ts| ==> 0 <= ts[k] < |d.tasks|
    requires i < |MachineTasks(d, r)| && j < |MachineTasks(d, r)|
    ensures var ts := MachineTasks(d, r);
            Distance(MachineMatrix(d, c, r), ts, i, j) == LastSetup(c.setupTimes, r, ts[i], ts[j])
    ensures TypesIndex(MachineMatrix(d, c, r).value, MachineTasks(d, r))
  {
    var ts := MachineTasks(d, r);
    var mx := SetupMatrix(c.setupTimes, r, |d.tasks|);
    assert MachineMatrix(d, c, r).value == mx;
    assert mx[ts[i]][ts[j]] == LastSetup(c.setupTimes, r, ts[i], ts[j]);
  }

  /** The records `_machines_no_overlap_and_setup_times` adds for resource `r`. */
  function NoOverlapBlock(d: SolverData, v: Vars, c: CpoConstraintData, r: nat): seq<Record>
    requires HasSequences(d, v)
  {
    if IsMachine(d, r) && Resource2Modes(d, r) != [] then [NoOverlap(v.sequences[r], MachineMatrix(d, c, r))] else []
  }

  /** Its blocks for the first `n` resources. */
  function NoOverlapBlocks(d: SolverData, v: Vars, c: CpoConstraintData, n: nat): (bs: seq<seq<Record>>)
    requires HasSequences(d, v)
    ensures |bs| == n && forall r {:trigger bs[r]} :: 0 <= r < n ==> bs[r] == NoOverlapBlock(d, v, c, r)
  {
    seq(n, r requires 0 <= r < n => NoOverlapBlock(d, v, c, r))
  }

  /** Its records for the first `n` resources. */
  function NoOverlapRecords(d: SolverData, v: Vars, c: CpoConstraintData, n: nat): seq<Record>
    requires HasSequences(d, v)
  {
    if n == 0 then [] else NoOverlapRecords(d, v, c, n - 1) + NoOverlapBlock(d, v, c, n - 1)
  }

  /** The records are the blocks laid end to end. */
  lemma {:induction false} NoOverlapFlat(d: SolverData, v: Vars, c: CpoConstraintData, n: nat)
    requires HasSequences(d, v)
    ensures NoOverlapRecords(d, v, c, n) == CpLog.Flatten(NoOverlapBlocks(d, v, c, n))
  {
    if n > 0 {
      NoOverlapFlat(d, v, c, n - 1);
      assert NoOverlapBlocks(d, v, c, n)[..n - 1] == NoOverlapBlocks(d, v, c, n - 1);
    }
  }

  /** The records of resource `j` are among those of the first `n > j` resources. */
  lemma NoOverlapBlockIn(d: SolverData, v: Vars, c: CpoConstraintData, n: nat, j: nat, x: Record)
    requires HasSequences(d, v) && j < n && x in NoOverlapBlock(d, v, c, j)
    ensures x in NoOverlapRecords(d, v, c, n)
  {
    NoOverlapFlat(d, v, c, n);
    CpLog.FlattenMember(NoOverlapBlocks(d, v, c, n), j, x);
  }

  lemma NoOverlapNext(d: SolverData, v: Vars, c: CpoConstraintData, n: nat)
    requires HasSequences(d, v)
    ensures NoOverlapRecords(d, v, c, n + 1) == NoOverlapRecords(d, v, c, n) + NoOverlapBlock(d, v, c, n)
  {
  }


  /** `_machines_no_overlap_and_setup_times`, with the matrix indexed by task. */
  method MachinesNoOverlap(m: Model, d: SolverData, v: Vars, c: CpoConstraintData)
    requires HasSequences(d, v)
    modifies m
    ensures m.log == old(m.log) + NoOverlapRecords(d, v, c, |d.resources|)
    ensures m.next == old(m.next) && m.startingPoint == old(m.startingPoint)
  {
    ghost var log0 := m.log;
    var idx := 0;
    while idx < |d.resources|
      invariant idx <= |d.resources|
      invariant m.log == log0 + NoOverlapRecords(d, v, c, idx)
      invariant m.next == old(m.next) && m.startingPoint == old(m.startingPoint)
    {
      NoOverlapNext(d, v, c, idx);
      if IsMachine(d, idx) {
        var modes := Resource2Modes(d, idx);
        if modes != [] {
          var seqVar := v.sequences[idx];
          var matrix := MachineMatrix(d, c, idx);
          m.Add(NoOverlap(seqVar, matrix));
        }
      }
      idx := idx + 1;
    }
  }

  /**
   * Two distinct present modes on machine `r` do not overlap, and between
   * them lies at least the setup time from the first one's task to the
   * second one's.
   */
  lemma {:induction false} NoOverlapMeaning(d: SolverData, v: Vars, c: CpoConstraintData, val: Valuation,
                                            r: nat, k1: nat, k2: nat)
    requires Built(d, v) && SetupsNonNegative(c) && IsMachine(d, r)
    requires Satisfies(NoOverlapRecords(d, v, c, |d.resources|), val)
    requires k1 < |d.modes| && k2 < |d.modes| && k1 != k2
    requires r in d.modes[k1].resources && r in d.modes[k2].resources
    requires Present(val, v.modes[k1].id) && Present(val, v.modes[k2].id)
    ensures var x1, x2 := val(v.modes[k1].id), val(v.modes[k2].id);
            || x1.end + LastSetup(c.setupTimes, r, d.modes[k1].task, d.modes[k2].task) <= x2.start
            || x2.end + LastSetup(c.setupTimes, r, d.modes[k2].task, d.modes[k1].task) <= x1.start
  {
    var modes := Resource2Modes(d, r);
    var s := SequenceOf(d, v.modes, r);
    assert k1 in modes && k2 in modes;
    var i1 :| 0 <= i1 < |modes| && modes[i1] == k1;
    var i2 :| 0 <= i2 < |modes| && modes[i2] == k2;
    NoOverlapHoldsAt(d, v, c, val, r);
    SequenceAligned(d, v.modes, r);
    MachineDistance(d, c, r, i1, i2);
    MachineDistance(d, c, r, i2, i1);
    assert s.intervals[i1] == v.modes[k1].id && s.intervals[i2] == v.modes[k2].id;
    NoOverlapPair(s, MachineMatrix(d, c, r), val, i1, i2);
  }

  /** A satisfied no-overlap keeps two present intervals of its sequence apart. */
  lemma NoOverlapPair(s: SequenceVar, matrix: Option<seq<seq<int>>>, val: Valuation, i: nat, j: nat)
    requires NoOverlapHolds(s, matrix, val) && i < |s.intervals| && j < |s.intervals| && i != j
    requires Present(val, s.intervals[i]) && Present(val, s.intervals[j])
    ensures val(s.intervals[i]).end + Distance(matrix, s.types, i, j) <= val(s.intervals[j]).start
            || val(s.intervals[j]).end + Distance(matrix, s.types, j, i) <= val(s.intervals[i]).start
  {
  }

  /** A satisfied log of no-overlaps satisfies machine `r`'s, over the sequence `Variables` made. */
  lemma {:induction false} NoOverlapHoldsAt(d: SolverData, v: Vars, c: CpoConstraintData, val: Valuation, r: nat)
    requires Built(d, v) && IsMachine(d, r) && Resource2Modes(d, r) != []
    requires Satisfies(NoOverlapRecords(d, v, c, |d.resources|), val)
    ensures NoOverlapHolds(SequenceOf(d, v.modes, r), MachineMatrix(d, c, r), val)
    ensures SequenceOf(d, v.modes, r).types == MachineTasks(d, r)
  {
    var x := NoOverlap(SequenceOf(d, v.modes, r), MachineMatrix(d, c, r));
    NoOverlapBlockIn(d, v, c, |d.resources|, r, x);
    SatisfiesMember(NoOverlapRecords(d, v, c, |d.resources|), x, val);
  }

  // ------------------------------------------------------------ renewables

  /** The position of `x` in `s`. */
  function IndexOf(s: seq<int>, x: int): (k: nat)
    requires x in s
    ensures k < |s| && s[k] == x
  {
    if s[0] == x then 0 else 1 + IndexOf(s[1..], x)
  }

  /** The demand mode `mode` puts on resource `r`: what `resource2modes_demands` pairs with it. */
  function DemandOf(d: SolverData, mode: nat, r: int): int
    requires Indexed(d) && mode < |d.modes| && r in d.modes[mode].resources
  {
    d.modes[mode].demands[IndexOf(d.modes[mode].resources, r)]
  }

  /** `pulse(mode_var, demand)` for every mode on resource `r`, in mode order. */
  function ModePulses(d: SolverData, v: Vars, r: int): (ps: seq<(IVar, int)>)
    requires Sized(d, v)
  {
    var modes := Resource2Modes(d, r);
    seq(|modes|, k requires 0 <= k < |modes| => (v.modes[modes[k]].id, DemandOf(d, modes[k], r)))
  }

  /** The pulses with a positive demand, in order. */
  function PositivePulses(ps: seq<(IVar, int)>): (r: seq<(IVar, int)>)
  {
    if ps == [] then []
    else PositivePulses(ps[..|ps| - 1]) + (if ps[|ps| - 1].1 > 0 then [ps[|ps| - 1]] else [])
  }

  /** Dropping the pulses without positive demand never lowers the load, and keeps it when no demand is negative. */
  lemma {:induction false} PositivePulsesLoad(ps: seq<(IVar, int)>, t: int, val: Valuation)
    ensures PulseLoad(ps, t, val) <= PulseLoad(PositivePulses(ps), t, val)
    ensures (forall k :: 0 <= k < |ps| ==> ps[k].1 >= 0) ==> PulseLoad(ps, t, val) == PulseLoad(PositivePulses(ps), t, val)
  {
    if ps != [] {
      var init := ps[..|ps| - 1];
      var last := ps[|ps| - 1];
      PositivePulsesLoad(init, t, val);
      if last.1 > 0 {
        PulseLoadSnoc(PositivePulses(init), last, t, val);
      } else {
        assert PositivePulses(ps) == PositivePulses(init);
      }
    }
  }

  /** Appending one pulse adds its height to the load exactly when its interval covers `t`. */
  lemma PulseLoadSnoc(ps: seq<(IVar, int)>, x: (IVar, int), t: int, val: Valuation)
    ensures PulseLoad(ps + [x], t, val)
            == PulseLoad(ps, t, val) + (if val(x.0).present && val(x.0).start <= t < val(x.0).end then x.1 else 0)
  {
    assert (ps + [x])[..|ps|] == ps;
  }

  /** The record `_renewable_capacity` adds for resource `r`. */
  function RenewableBlock(d: SolverData, v: Vars, r: nat): seq<Record>
    requires Sized(d, v)
  {
    if IsRenewable(d, r) then [PulseCap(PositivePulses(ModePulses(d, v, r)), d.resources[r].capacity)] else []
  }

  /** The blocks of the first `n` resources. */
  function RenewableBlocks(d: SolverData, v: Vars, n: nat): (bs: seq<seq<Record>>)
    requires Sized(d, v)
    ensures |bs| == n && forall r {:trigger bs[r]} :: 0 <= r < n ==> bs[r] == RenewableBlock(d, v, r)
  {
    seq(n, r requires 0 <= r < n => RenewableBlock(d, v, r))
  }

  /** The records of `_renewable_capacity` for the first `n` resources. */
  function RenewableRecords(d: SolverData, v: Vars, n: nat): seq<Record>
    requires Sized(d, v)
  {
    if n == 0 then [] else RenewableRecords(d, v, n - 1) + RenewableBlock(d, v, n - 1)
  }

  /** The records are the blocks laid end to end. */
  lemma {:induction false} RenewableFlat(d: SolverData, v: Vars, n: nat)
    requires Sized(d, v)
    ensures RenewableRecords(d, v, n) == CpLog.Flatten(RenewableBlocks(d, v, n))
  {
    if n > 0 {
      RenewableFlat(d, v, n - 1);
      assert RenewableBlocks(d, v, n)[..n - 1] == RenewableBlocks(d, v, n - 1);
    }
  }

  /** The records of resource `j` are among those of the first `n > j` resources. */
  lemma RenewableBlockIn(d: SolverData, v: Vars, n: nat, j: nat, x: Record)
    requires Sized(d, v) && j < n && x in RenewableBlock(d, v, j)
    ensures x in RenewableRecords(d, v, n)
  {
    RenewableFlat(d, v, n);
    CpLog.FlattenMember(RenewableBlocks(d, v, n), j, x);
  }

  lemma RenewableNext(d: SolverData, v: Vars, n: nat)
    requires Sized(d, v)
    ensures RenewableRecords(d, v, n + 1) == RenewableRecords(d, v, n) + RenewableBlock(d, v, n)
  {
  }


  /** `_renewable_capacity`. */
  method RenewableCapacity(m: Model, d: SolverData, v: Vars)
    requires Sized(d, v)
    modifies m
    ensures m.log == old(m.log) + RenewableRecords(d, v, |d.resources|)
    ensures m.next == old(m.next) && m.startingPoint == old(m.startingPoint)
  {
    ghost var log0 := m.log;
    var idx: nat := 0;
    while idx < |d.resources|
      invariant idx <= |d.resources|
      invariant m.log == log0 + RenewableRecords(d, v, idx)
      invariant m.next == old(m.next) && m.startingPoint == old(m.startingPoint)
    {
      RenewableNext(d, v, idx);
      if IsRenewable(d, idx) {
        var pulses := PositivePulses(ModePulses(d, v, idx));
        m.Add(PulseCap(pulses, d.resources[idx].capacity));
      }
      idx := idx + 1;
    }
  }

  /** At every time, the demands of the present modes of renewable `r` running then fit its capacity. */
  lemma {:induction false} RenewableMeaning(d: SolverData, v: Vars, val: Valuation, r: nat)
    requires Sized(d, v) && IsRenewable(d, r) && Satisfies(RenewableRecords(d, v, |d.resources|), val)
    ensures forall t :: PulseLoad(ModePulses(d, v, r), t, val) <= d.resources[r].capacity
  {
    var ps := ModePulses(d, v, r);
    var x := PulseCap(PositivePulses(ps), d.resources[r].capacity);
    RenewableBlockIn(d, v, |d.resources|, r, x);
    SatisfiesMember(RenewableRecords(d, v, |d.resources|), x, val);
    forall t
      ensures PulseLoad(ps, t, val) <= d.resources[r].capacity
    {
      PositivePulsesLoad(ps, t, val);
    }
  }

  // -------------------------------------------------------- non-renewables

  /** Every mode variable is optional, as `Variables` makes them. */
  predicate ModesOptional(v: Vars)
  {
    forall k :: 0 <= k < |v.modes| ==> v.modes[k].optional
  }

  /** The listed modes exist and use resource `r`. */
  predicate ModesOn(d: SolverData, ms: seq<nat>, r: int)
  {
    forall k :: 0 <= k < |ms| ==> ms[k] < |d.modes| && r in d.modes[ms[k]].resources
  }

  /** `presence_of(mode_var) * demand` for each listed mode. */
  function UsageExprs(d: SolverData, v: Vars, ms: seq<nat>, r: int): (es: seq<CExpr>)
    requires Sized(d, v) && ModesOn(d, ms, r)
    ensures |es| == |ms|
  {
    seq(|ms|, k requires 0 <= k < |ms| => Scale(DemandOf(d, ms[k], r), PresenceExpr(v.modes[ms[k]])))
  }

  /** The summed demand on `r` of the present modes among `ms`. */
  function PresentDemand(d: SolverData, v: Vars, ms: seq<nat>, r: int, val: Valuation): int
    requires Sized(d, v) && ModesOn(d, ms, r)
  {
    if ms == [] then 0
    else
      var last := ms[|ms| - 1];
      PresentDemand(d, v, ms[..|ms| - 1], r, val) + (if Present(val, v.modes[last].id) then DemandOf(d, last, r) else 0)
  }

  /** The usage sum is the present modes' demand. */
  lemma {:induction false} UsageTotal(d: SolverData, v: Vars, ms: seq<nat>, r: int, val: Valuation)
    requires Sized(d, v) && ModesOptional(v) && ModesOn(d, ms, r)
    ensures Total(UsageExprs(d, v, ms, r), val) == PresentDemand(d, v, ms, r, val)
  {
    if ms != [] {
      var init := ms[..|ms| - 1];
      var last := ms[|ms| - 1];
      assert UsageExprs(d, v, ms, r)[..|ms| - 1] == UsageExprs(d, v, init, r);
      assert v.modes[last].optional;
      assert Eval(UsageExprs(d, v, ms, r)[|ms| - 1], val)
          == DemandOf(d, last, r) * (if Present(val, v.modes[last].id) then 1 else 0);
      UsageTotal(d, v, init, r, val);
    }
  }

  /** The record `_non_renewable_capacity` adds for resource `r`. */
  function NonRenewableBlock(d: SolverData, v: Vars, r: nat): seq<Record>
    requires Sized(d, v)
  {
    if IsNonRenewable(d, r) then [LessEq(Sum(UsageExprs(d, v, Resource2Modes(d, r), r)), CNum(d.resources[r].capacity))]
    else []
  }

  /** The blocks of the first `n` resources. */
  function NonRenewableBlocks(d: SolverData, v: Vars, n: nat): (bs: seq<seq<Record>>)
    requires Sized(d, v)
    ensures |bs| == n && forall r {:trigger bs[r]} :: 0 <= r < n ==> bs[r] == NonRenewableBlock(d, v, r)
  {
    seq(n, r requires 0 <= r < n => NonRenewableBlock(d, v, r))
  }

  /** The records of `_non_renewable_capacity` for the first `n` resources. */
  function NonRenewableRecords(d: SolverData, v: Vars, n: nat): seq<Record>
    requires Sized(d, v)
  {
    if n == 0 then [] else NonRenewableRecords(d, v, n - 1) + NonRenewableBlock(d, v, n - 1)
  }

  /** The records are the blocks laid end to end. */
  lemma {:induction false} NonRenewableFlat(d: SolverData, v: Vars, n: nat)
    requires Sized(d, v)
    ensures NonRenewableRecords(d, v, n) == CpLog.Flatten(NonRenewableBlocks(d, v, n))
  {
    if n > 0 {
      NonRenewableFlat(d, v, n - 1);
      assert NonRenewableBlocks(d, v, n)[..n - 1] == NonRenewableBlocks(d, v, n - 1);
    }
  }

  /** The records of resource `j` are among those of the first `n > j` resources. */
  lemma NonRenewableBlockIn(d: SolverData, v: Vars, n: nat, j: nat, x: Record)
    requires Sized(d, v) && j < n && x in NonRenewableBlock(d, v, j)
    ensures x in NonRenewableRecords(d, v, n)
  {
    NonRenewableFlat(d, v, n);
    CpLog.FlattenMember(NonRenewableBlocks(d, v, n), j, x);
  }

  lemma NonRenewableNext(d: SolverData, v: Vars, n: nat)
    requires Sized(d, v)
    ensures NonRenewableRecords(d, v, n + 1) == NonRenewableRecords(d, v, n) + NonRenewableBlock(d, v, n)
  {
  }


  /** `_non_renewable_capacity`. */
  method NonRenewableCapacity(m: Model, d: SolverData, v: Vars)
    requires Sized(d, v)
    modifies m
    ensures m.log == old(m.log) + NonRenewableRecords(d, v, |d.resources|)
    ensures m.next == old(m.next) && m.startingPoint == old(m.startingPoint)
  {
    ghost var log0 := m.log;
    var idx: nat := 0;
    while idx < |d.resources|
      invariant idx <= |d.resources|
      invariant m.log == log0 + NonRenewableRecords(d, v, idx)
      invariant m.next == old(m.next) && m.startingPoint == old(m.startingPoint)
    {
      NonRenewableNext(d, v, idx);
      if IsNonRenewable(d, idx) {
        var usage := UsageExprs(d, v, Resource2Modes(d, idx), idx);
        m.Add(LessEq(Sum(usage), CNum(d.resources[idx].capacity)));
      }
      idx := idx + 1;
    }
  }

  /** Over the whole horizon, the present modes' demands on non-renewable `r` fit its capacity. */
  lemma {:induction false} NonRenewableMeaning(d: SolverData, v: Vars, val: Valuation, r: nat)
    requires Sized(d, v) && ModesOptional(v) && IsNonRenewable(d, r)
    requires Satisfies(NonRenewableRecords(d, v, |d.resources|), val)
    ensures PresentDemand(d, v, Resource2Modes(d, r), r, val) <= d.resources[r].capacity
  {
    var x := NonRenewableBlock(d, v, r)[0];
    NonRenewableBlockIn(d, v, |d.resources|, r, x);
    SatisfiesMember(NonRenewableRecords(d, v, |d.resources|), x, val);
    UsageTotal(d, v, Resource2Modes(d, r), r, val);
  }

  // ---------------------------------------------------------------- timing

  /** `start_before_start(task1, task2, delay)` and its siblings, by the two points compared. */
  function TimingRecord(v: Vars, pa: Point, pb: Point, c: Timing): Record
    requires c.task1 < |v.tasks| && c.task2 < |v.tasks|
  {
    Precedence(v.tasks[c.task1].id, pa, v.tasks[c.task2].id, pb, c.delay)
  }

  function TimingRecords(v: Vars, pa: Point, pb: Point, cs: seq<Timing>): (r: seq<Record>)
    requires TimingsIn(cs, |v.tasks|)
    ensures |r| == |cs|
  {
    seq(|cs|, k requires 0 <= k < |cs| => TimingRecord(v, pa, pb, cs[k]))
  }

  /** One list of `_timing_constraints`. */
  method AddTimings(m: Model, v: Vars, pa: Point, pb: Point, cs: seq<Timing>)
    requires TimingsIn(cs, |v.tasks|)
    modifies m
    ensures m.log == old(m.log) + TimingRecords(v, pa, pb, cs)
    ensures m.next == old(m.next) && m.startingPoint == old(m.startingPoint)
  {
    ghost var log0 := m.log;
    var k := 0;
    while k < |cs|
      invariant k <= |cs|
      invariant m.log == log0 + TimingRecords(v, pa, pb, cs[..k])
      invariant m.next == old(m.next) && m.startingPoint == old(m.startingPoint)
    {
      m.Add(Precedence(v.tasks[cs[k].task1].id, pa, v.tasks[cs[k].task2].id, pb, cs[k].delay));
      assert TimingRecords(v, pa, pb, cs[..k + 1]) == TimingRecords(v, pa, pb, cs[..k]) + [TimingRecord(v, pa, pb, cs[k])];
      k := k + 1;
    }
    assert cs[..k] == cs;
  }

  function AllTimingRecords(v: Vars, c: CpoConstraintData): seq<Record>
    requires TimingsIn(c.startBeforeStart, |v.tasks|) && TimingsIn(c.startBeforeEnd, |v.tasks|)
    requires TimingsIn(c.endBeforeStart, |v.tasks|) && TimingsIn(c.endBeforeEnd, |v.tasks|)
  {
    TimingRecords(v, Start, Start, c.startBeforeStart) + TimingRecords(v, Start, End, c.startBeforeEnd)
    + TimingRecords(v, End, Start, c.endBeforeStart) + TimingRecords(v, End, End, c.endBeforeEnd)
  }

  /** `_timing_constraints`: the four lists in order. */
  method TimingConstraints(m: Model, v: Vars, c: CpoConstraintData)
    requires TimingsIn(c.startBeforeStart, |v.tasks|) && TimingsIn(c.startBeforeEnd, |v.tasks|)
    requires TimingsIn(c.endBeforeStart, |v.tasks|) && TimingsIn(c.endBeforeEnd, |v.tasks|)
    modifies m
    ensures m.log == old(m.log) + AllTimingRecords(v, c)
    ensures m.next == old(m.next) && m.startingPoint == old(m.startingPoint)
  {
    ghost var log0 := m.log;
    AddTimings(m, v, Start, Start, c.startBeforeStart);
    ghost var log1 := m.log;
    AddTimings(m, v, Start, End, c.startBeforeEnd);
    ghost var log2 := m.log;
    AddTimings(m, v, End, Start, c.endBeforeStart);
    ghost var log3 := m.log;
    AddTimings(m, v, End, End, c.endBeforeEnd);
    VariableRecordsChain(log0, log1, log2, log3, m.log, TimingRecords(v, Start, Start, c.startBeforeStart),
                         TimingRecords(v, Start, End, c.startBeforeEnd), TimingRecords(v, End, Start, c.endBeforeStart),
                         TimingRecords(v, End, End, c.endBeforeEnd));
  }

  /** Between two present tasks of a timing constraint, the chosen points keep the delay. */
  lemma {:induction false} TimingMeaning(v: Vars, pa: Point, pb: Point, cs: seq<Timing>, val: Valuation, k: nat)
    requires TimingsIn(cs, |v.tasks|) && Satisfies(TimingRecords(v, pa, pb, cs), val) && k < |cs|
    ensures Present(val, v.tasks[cs[k].task1].id) && Present(val, v.tasks[cs[k].task2].id) ==>
              PointOf(val(v.tasks[cs[k].task1].id), pa) + cs[k].delay <= PointOf(val(v.tasks[cs[k].task2].id), pb)
  {
    assert Holds(TimingRecords(v, pa, pb, cs)[k], val);
  }

  /** A satisfied timing log satisfies each of its four lists. */
  lemma {:induction false} AllTimingsSatisfied(v: Vars, c: CpoConstraintData, val: Valuation)
    requires TimingsIn(c.startBeforeStart, |v.tasks|) && TimingsIn(c.startBeforeEnd, |v.tasks|)
    requires TimingsIn(c.endBeforeStart, |v.tasks|) && TimingsIn(c.endBeforeEnd, |v.tasks|)
    requires Satisfies(AllTimingRecords(v, c), val)
    ensures Satisfies(TimingRecords(v, Start, Start, c.startBeforeStart), val)
    ensures Satisfies(TimingRecords(v, Start, End, c.startBeforeEnd), val)
    ensures Satisfies(TimingRecords(v, End, Start, c.endBeforeStart), val)
    ensures Satisfies(TimingRecords(v, End, End, c.endBeforeEnd), val)
  {
    var a := TimingRecords(v, Start, Start, c.startBeforeStart);
    var b := TimingRecords(v, Start, End, c.startBeforeEnd);
    var e := TimingRecords(v, End, Start, c.endBeforeStart);
    var f := TimingRecords(v, End, End, c.endBeforeEnd);
    SatisfiesLeft(a + b + e, f, val);
    SatisfiesRight(a + b + e, f, val);
    SatisfiesLeft(a + b, e, val);
    SatisfiesRight(a + b, e, val);
    SatisfiesLeft(a, b, val);
    SatisfiesRight(a, b, val);
  }

  // ------------------------------------------- identical and different resources

  /** Which mode pairs a resource constraint matches: `identical_modes` or `different_modes`. */
  datatype Matching = Identical | Different

  /** Whether two resource sets match: equal for identical resources, disjoint for different ones. */
  predicate Matches(kind: Matching, a: set<int>, b: set<int>)
  {
    match kind
    case Identical => a == b
    case Different => a * b == {}
  }

  /** A row names a mode and a list of modes, all below `n`. */
  predicate RowIn(row: (nat, seq<nat>), n: nat)
  {
    row.0 < n && forall i :: 0 <= i < |row.1| ==> row.1[i] < n
  }

  predicate RowsIn(rows: seq<(nat, seq<nat>)>, n: nat)
  {
    forall k :: 0 <= k < |rows| ==> RowIn(rows[k], n)
  }

  function MatchModes(kind: Matching, modes: seq<Mode>, task1: int, task2: int): (rows: seq<(nat, seq<nat>)>)
    ensures RowsIn(rows, |modes|)
  {
    var rows := match kind
      case Identical => IdenticalModes(modes, task1, task2)
      case Different => DifferentModes(modes, task1, task2);
    forall k, i | 0 <= k < |rows| && 0 <= i < |rows[k].1|
      ensures rows[k].1[i] < |modes|
    {
      assert rows[k].1[i] in rows[k].1;
    }
    rows
  }

  /** Every mode of `task1` heads a row of `MatchModes`. */
  lemma MatchRowOf(kind: Matching, modes: seq<Mode>, task1: int, task2: int, mode1: nat) returns (i: nat)
    requires mode1 < |modes| && modes[mode1].task == task1
    ensures i < |MatchModes(kind, modes, task1, task2)| && MatchModes(kind, modes, task1, task2)[i].0 == mode1
  {
    var ms1 := ModesOf(modes, task1);
    assert mode1 in ms1;
    i :| 0 <= i < |ms1| && ms1[i] == mode1;
  }

  /** The modes a row lists are modes of `task2` whose resources match the row's mode. */
  lemma MatchRowMember(kind: Matching, modes: seq<Mode>, task1: int, task2: int, i: nat, j: nat)
    requires i < |MatchModes(kind, modes, task1, task2)| && j < |MatchModes(kind, modes, task1, task2)[i].1|
    ensures var row := MatchModes(kind, modes, task1, task2)[i];
            row.1[j] < |modes| && modes[row.1[j]].task == task2
            && Matches(kind, Elements(modes[row.0].resources), Elements(modes[row.1[j]].resources))
  {
    var row := MatchModes(kind, modes, task1, task2)[i];
    assert row.1[j] in row.1;
  }

  /** `presence_of(mode1) <= sum(presence_of(mode2) for mode2 in modes2)`. */
  function MatchRecord(v: Vars, row: (nat, seq<nat>)): Record
    requires RowIn(row, |v.modes|)
  {
    LessEq(PresenceExpr(v.modes[row.0]), Sum(Presences(ModeVarsAt(v, row.1))))
  }

  function MatchRecords(v: Vars, rows: seq<(nat, seq<nat>)>): (r: seq<Record>)
    requires RowsIn(rows, |v.modes|)
    ensures |r| == |rows|
  {
    seq(|rows|, k requires 0 <= k < |rows| => MatchRecord(v, rows[k]))
  }

  /** The rows `MatchModes` gives for each task pair of a list. */
  function PairRows(kind: Matching, modes: seq<Mode>, pairs: seq<(nat, nat)>): (r: seq<seq<(nat, seq<nat>)>>)
    ensures |r| == |pairs| && AllRowsIn(r, |modes|)
  {
    seq(|pairs|, k requires 0 <= k < |pairs| => MatchModes(kind, modes, pairs[k].0, pairs[k].1))
  }

  predicate AllRowsIn(rowsOf: seq<seq<(nat, seq<nat>)>>, n: nat)
  {
    forall k :: 0 <= k < |rowsOf| ==> RowsIn(rowsOf[k], n)
  }

  /** The records for the first `n` task pairs of a list, given the rows of each pair. */
  function MatchPairRecords(v: Vars, rowsOf: seq<seq<(nat, seq<nat>)>>, n: nat): seq<Record>
    requires n <= |rowsOf| && AllRowsIn(rowsOf, |v.modes|)
  {
    if n == 0 then [] else MatchPairRecords(v, rowsOf, n - 1) + MatchRecords(v, rowsOf[n - 1])
  }

  lemma {:induction false} MatchPairBlockIn(v: Vars, rowsOf: seq<seq<(nat, seq<nat>)>>, n: nat, k: nat, x: Record)
    requires k < n <= |rowsOf| && AllRowsIn(rowsOf, |v.modes|) && x in MatchRecords(v, rowsOf[k])
    ensures x in MatchPairRecords(v, rowsOf, n)
  {
    if k < n - 1 {
      MatchPairBlockIn(v, rowsOf, n - 1, k, x);
    }
  }

  lemma MatchPairRecordsStep(v: Vars, rowsOf: seq<seq<(nat, seq<nat>)>>, k: nat)
    requires k < |rowsOf| && AllRowsIn(rowsOf, |v.modes|)
    ensures MatchPairRecords(v, rowsOf, k + 1) == MatchPairRecords(v, rowsOf, k) + MatchRecords(v, rowsOf[k])
  {
  }

  /** The inner loop: one record per row. */
  method AddMatchRows(m: Model, v: Vars, rows: seq<(nat, seq<nat>)>)
    requires RowsIn(rows, |v.modes|)
    modifies m
    ensures m.log == old(m.log) + MatchRecords(v, rows)
    ensures m.next == old(m.next) && m.startingPoint == old(m.startingPoint)
  {
    ghost var log0 := m.log;
    var k := 0;
    while k < |rows|
      invariant k <= |rows|
      invariant m.log == log0 + MatchRecords(v, rows[..k])
      invariant m.next == old(m.next) && m.startingPoint == old(m.startingPoint)
    {
      var present2 := Sum(Presences(ModeVarsAt(v, rows[k].1)));
      m.Add(LessEq(PresenceExpr(v.modes[rows[k].0]), present2));
      assert MatchRecords(v, rows[..k + 1]) == MatchRecords(v, rows[..k]) + [MatchRecord(v, rows[k])];
      k := k + 1;
    }
    assert rows[..k] == rows;
  }

  /** The outer loop over one list of task pairs. */
  method AddMatchPairs(m: Model, kind: Matching, d: SolverData, v: Vars, pairs: seq<(nat, nat)>)
    requires Sized(d, v)
    modifies m
    ensures m.log == old(m.log) + MatchPairRecords(v, PairRows(kind, d.modes, pairs), |pairs|)
    ensures m.next == old(m.next) && m.startingPoint == old(m.startingPoint)
  {
    ghost var log0 := m.log;
    var rowsOf := PairRows(kind, d.modes, pairs);
    var k: nat := 0;
    while k < |pairs|
      invariant k <= |pairs|
      invariant m.log == log0 + MatchPairRecords(v, rowsOf, k)
      invariant m.next == old(m.next) && m.startingPoint == old(m.startingPoint)
    {
      var rows := rowsOf[k];
      AddMatchRows(m, v, rows);
      CpLog.AppendAssoc(log0, MatchPairRecords(v, rowsOf, k), MatchRecords(v, rows));
      MatchPairRecordsStep(v, rowsOf, k);
      k := k + 1;
    }
  }

  function IdenticalAndDifferentRecords(d: SolverData, v: Vars, c: CpoConstraintData): seq<Record>
    requires Sized(d, v)
  {
    MatchPairRecords(v, PairRows(Identical, d.modes, c.identicalResources), |c.identicalResources|)
    + MatchPairRecords(v, PairRows(Different, d.modes, c.differentResources), |c.differentResources|)
  }

  /** `_identical_and_different_resource_constraints`. */
  method IdenticalAndDifferent(m: Model, d: SolverData, v: Vars, c: CpoConstraintData)
    requires Sized(d, v)
    modifies m
    ensures m.log == old(m.log) + IdenticalAndDifferentRecords(d, v, c)
    ensures m.next == old(m.next) && m.startingPoint == old(m.startingPoint)
  {
    ghost var log0 := m.log;
    AddMatchPairs(m, Identical, d, v, c.identicalResources);
    AddMatchPairs(m, Different, d, v, c.differentResources);
    CpLog.AppendAssoc(log0, MatchPairRecords(v, PairRows(Identical, d.modes, c.identicalResources), |c.identicalResources|),
                      MatchPairRecords(v, PairRows(Different, d.modes, c.differentResources), |c.differentResources|));
  }

  /**
   * When a mode of the first task of a pair is present, some mode of the
   * second task whose resources match it is present too; with no matching
   * mode, the first mode cannot be selected.
   */
  lemma {:induction false} MatchMeaning(kind: Matching, d: SolverData, v: Vars, pairs: seq<(nat, nat)>, val: Valuation,
                                        k: nat, mode1: nat)
    requires Sized(d, v) && ModesOptional(v)
    requires Satisfies(MatchPairRecords(v, PairRows(kind, d.modes, pairs), |pairs|), val)
    requires k < |pairs| && mode1 < |d.modes| && d.modes[mode1].task == pairs[k].0
    requires Present(val, v.modes[mode1].id)
    ensures exists mode2 :: 0 <= mode2 < |d.modes| && d.modes[mode2].task == pairs[k].1
              && Matches(kind, Elements(d.modes[mode1].resources), Elements(d.modes[mode2].resources))
              && Present(val, v.modes[mode2].id)
  {
    var rowsOf := PairRows(kind, d.modes, pairs);
    var rows := rowsOf[k];
    var i := MatchRowOf(kind, d.modes, pairs[k].0, pairs[k].1, mode1);
    assert rows[i].0 == mode1;
    var x := MatchRecord(v, rows[i]);
    assert x == MatchRecords(v, rows)[i];
    MatchPairBlockIn(v, rowsOf, |pairs|, k, x);
    SatisfiesMember(MatchPairRecords(v, rowsOf, |pairs|), x, val);
    var ys := ModeVarsAt(v, rows[i].1);
    assert RespectsOptional(ys, val);
    PresenceImplies(v.modes[mode1], ys, val);
    var j :| 0 <= j < |ys| && Present(val, ys[j].id);
    MatchRowMember(kind, d.modes, pairs[k].0, pairs[k].1, i, j);
  }

  // ---------------------------------------------------------------- if-then

  function TaskVarsAt(v: Vars, idcs: seq<nat>): (r: seq<IntervalVar>)
    requires forall k :: 0 <= k < |idcs| ==> idcs[k] < |v.tasks|
    ensures |r| == |idcs|
  {
    seq(|idcs|, k requires 0 <= k < |idcs| => v.tasks[idcs[k]])
  }

  /** `presence_of(task1) <= sum(presence_of(task) for task in idcs2)`. */
  function IfThenRecord(v: Vars, c: (nat, seq<nat>)): Record
    requires IfThenIn(c, |v.tasks|)
  {
    LessEq(PresenceExpr(v.tasks[c.0]), Sum(Presences(TaskVarsAt(v, c.1))))
  }

  function IfThenRecords(v: Vars, cs: seq<(nat, seq<nat>)>): (r: seq<Record>)
    requires forall k :: 0 <= k < |cs| ==> IfThenIn(cs[k], |v.tasks|)
    ensures |r| == |cs|
  {
    seq(|cs|, k requires 0 <= k < |cs| => IfThenRecord(v, cs[k]))
  }

  /** `_if_then_constraints`. */
  method IfThenConstraints(m: Model, v: Vars, cs: seq<(nat, seq<nat>)>)
    requires forall k :: 0 <= k < |cs| ==> IfThenIn(cs[k], |v.tasks|)
    modifies m
    ensures m.log == old(m.log) + IfThenRecords(v, cs)
    ensures m.next == old(m.next) && m.startingPoint == old(m.startingPoint)
  {
    ghost var log0 := m.log;
    var k := 0;
    while k < |cs|
      invariant k <= |cs|
      invariant m.log == log0 + IfThenRecords(v, cs[..k])
      invariant m.next == old(m.next) && m.startingPoint == old(m.startingPoint)
    {
      var present2 := Sum(Presences(TaskVarsAt(v, cs[k].1)));
      m.Add(LessEq(PresenceExpr(v.tasks[cs[k].0]), present2));
      assert IfThenRecords(v, cs[..k + 1]) == IfThenRecords(v, cs[..k]) + [IfThenRecord(v, cs[k])];
      k := k + 1;
    }
    assert cs[..k] == cs;
  }

  /** If the first task of an if-then constraint is present, one of the listed tasks is. */
  lemma {:induction false} IfThenMeaning(v: Vars, cs: seq<(nat, seq<nat>)>, val: Valuation, k: nat)
    requires forall k :: 0 <= k < |cs| ==> IfThenIn(cs[k], |v.tasks|)
    requires RespectsOptional(v.tasks, val) && Satisfies(IfThenRecords(v, cs), val) && k < |cs|
    ensures Present(val, v.tasks[cs[k].0].id) ==> exists i :: 0 <= i < |cs[k].1| && Present(val, v.tasks[cs[k].1[i]].id)
  {
    var ys := TaskVarsAt(v, cs[k].1);
    assert Holds(IfThenRecords(v, cs)[k], val);
    assert RespectsOptional(ys, val);
    PresenceImplies(v.tasks[cs[k].0], ys, val);
    if Present(val, v.tasks[cs[k].0].id) {
      var j :| 0 <= j < |ys| && Present(val, ys[j].id);
      assert ys[j] == v.tasks[cs[k].1[j]];
    }
  }

  // ------------------------------------------------------------ consecutive

  /** The modes among `ms` that belong to task `t`, in their order. */
  function ModesOfTask(d: SolverData, ms: seq<nat>, t: int): (r: seq<nat>)
    ensures forall k :: 0 <= k < |r| ==> r[k] in ms && r[k] < |d.modes| && d.modes[r[k]].task == t
  {
    if ms == [] then []
    else
      var last := ms[|ms| - 1];
      ModesOfTask(d, ms[..|ms| - 1], t) + (if last < |d.modes| && d.modes[last].task == t then [last] else [])
  }

  lemma {:induction false} ModesOfTaskComplete(d: SolverData, ms: seq<nat>, t: int, mode: nat)
    requires mode in ms && mode < |d.modes| && d.modes[mode].task == t
    ensures mode in ModesOfTask(d, ms, t)
  {
    if ms[|ms| - 1] != mode {
      ModesOfTaskComplete(d, ms[..|ms| - 1], t, mode);
    }
  }

  /** `[mode for mode in resource2modes[machine] if modes[mode].task == t]`. */
  function MachineModesOf(d: SolverData, machine: int, t: int): (ms: seq<nat>)
    ensures forall k :: 0 <= k < |ms| ==> ms[k] < |d.modes| && d.modes[ms[k]].task == t && machine in d.modes[ms[k]].resources
  {
    var all := Resource2Modes(d, machine);
    var ms := ModesOfTask(d, all, t);
    forall k | 0 <= k < |ms|
      ensures machine in d.modes[ms[k]].resources
    {
      var i :| 0 <= i < |all| && all[i] == ms[k];
    }
    ms
  }

  /** Every mode of task `t` on the machine is selected. */
  lemma MachineModesComplete(d: SolverData, machine: int, t: int, mode: nat)
    requires mode < |d.modes| && d.modes[mode].task == t && machine in d.modes[mode].resources
    ensures mode in MachineModesOf(d, machine, t)
  {
    ModesOfTaskComplete(d, Resource2Modes(d, machine), t, mode);
  }

  predicate ModesIn(ms: seq<nat>, n: nat)
  {
    forall k :: 0 <= k < |ms| ==> ms[k] < n
  }

  /** `previous(seq_var, mode1, mode2)` for each mode2 of `ms2`. */
  function PreviousRow(s: SequenceVar, v: Vars, mode1: nat, ms2: seq<nat>): (r: seq<Record>)
    requires mode1 < |v.modes| && ModesIn(ms2, |v.modes|)
    ensures |r| == |ms2|
  {
    seq(|ms2|, j requires 0 <= j < |ms2| => Record.Previous(s, v.modes[mode1].id, v.modes[ms2[j]].id))
  }

  /** The records of `product(ms1[..n], ms2)`, the second list varying fastest. */
  function PreviousRows(s: SequenceVar, v: Vars, ms1: seq<nat>, ms2: seq<nat>, n: nat): seq<Record>
    requires n <= |ms1| && ModesIn(ms1, |v.modes|) && ModesIn(ms2, |v.modes|)
  {
    if n == 0 then [] else PreviousRows(s, v, ms1, ms2, n - 1) + PreviousRow(s, v, ms1[n - 1], ms2)
  }

  /** The records for one consecutive constraint: none unless both tasks have a mode on the machine. */
  function ConsecutiveBlock(d: SolverData, v: Vars, c: (nat, nat, nat)): seq<Record>
    requires Sized(d, v) && HasSequences(d, v) && IsMachine(d, c.2)
  {
    var ms1 := MachineModesOf(d, c.2, c.0);
    var ms2 := MachineModesOf(d, c.2, c.1);
    if ms1 == [] || ms2 == [] then [] else PreviousRows(v.sequences[c.2], v, ms1, ms2, |ms1|)
  }

  predicate ConsecutiveIn(d: SolverData, cs: seq<(nat, nat, nat)>)
  {
    forall k :: 0 <= k < |cs| ==> IsMachine(d, cs[k].2)
  }

  function ConsecutiveBlocks(d: SolverData, v: Vars, cs: seq<(nat, nat, nat)>): (bs: seq<seq<Record>>)
    requires Sized(d, v) && HasSequences(d, v) && ConsecutiveIn(d, cs)
    ensures |bs| == |cs| && forall k {:trigger bs[k]} :: 0 <= k < |cs| ==> bs[k] == ConsecutiveBlock(d, v, cs[k])
  {
    seq(|cs|, k requires 0 <= k < |cs| => ConsecutiveBlock(d, v, cs[k]))
  }

  lemma ConsecutiveBlocksStep(d: SolverData, v: Vars, cs: seq<(nat, nat, nat)>, k: nat)
    requires Sized(d, v) && HasSequences(d, v) && ConsecutiveIn(d, cs) && k < |cs|
    ensures ConsecutiveBlocks(d, v, cs[..k + 1]) == ConsecutiveBlocks(d, v, cs[..k]) + [ConsecutiveBlock(d, v, cs[k])]
  {
    assert cs[..k + 1] == cs[..k] + [cs[k]];
  }

  /** The records of `_consecutive_constraints`, block after block. */
  function ConsecutiveRecords(d: SolverData, v: Vars, cs: seq<(nat, nat, nat)>): seq<Record>
    requires Sized(d, v) && HasSequences(d, v) && ConsecutiveIn(d, cs)
  {
    CpLog.Flatten(ConsecutiveBlocks(d, v, cs))
  }

  /** Every pair of `ms1[..n]` and `ms2` has its `previous` record. */
  lemma {:induction false} PreviousRowsContain(s: SequenceVar, v: Vars, ms1: seq<nat>, ms2: seq<nat>, n: nat, i: nat, j: nat)
    requires n <= |ms1| && ModesIn(ms1, |v.modes|) && ModesIn(ms2, |v.modes|) && i < n && j < |ms2|
    ensures Record.Previous(s, v.modes[ms1[i]].id, v.modes[ms2[j]].id) in PreviousRows(s, v, ms1, ms2, n)
  {
    if i < n - 1 {
      PreviousRowsContain(s, v, ms1, ms2, n - 1, i, j);
    } else {
      assert PreviousRow(s, v, ms1[i], ms2)[j] == Record.Previous(s, v.modes[ms1[i]].id, v.modes[ms2[j]].id);
    }
  }

  /** And nothing else. */
  lemma {:induction false} PreviousRowsOnly(s: SequenceVar, v: Vars, ms1: seq<nat>, ms2: seq<nat>, n: nat, x: Record)
    returns (i: nat, j: nat)
    requires n <= |ms1| && ModesIn(ms1, |v.modes|) && ModesIn(ms2, |v.modes|) && x in PreviousRows(s, v, ms1, ms2, n)
    ensures i < n && j < |ms2| && x == Record.Previous(s, v.modes[ms1[i]].id, v.modes[ms2[j]].id)
  {
    if x in PreviousRows(s, v, ms1, ms2, n - 1) {
      i, j := PreviousRowsOnly(s, v, ms1, ms2, n - 1, x);
    } else {
      var row := PreviousRow(s, v, ms1[n - 1], ms2);
      assert x in row;
      i := n - 1;
      j :| 0 <= j < |row| && row[j] == x;
    }
  }

  /** The inner loop over `modes2`. */
  method AddPreviousRow(m: Model, s: SequenceVar, v: Vars, mode1: nat, ms2: seq<nat>)
    requires mode1 < |v.modes| && ModesIn(ms2, |v.modes|)
    modifies m
    ensures m.log == old(m.log) + PreviousRow(s, v, mode1, ms2)
    ensures m.next == old(m.next) && m.startingPoint == old(m.startingPoint)
  {
    ghost var log0 := m.log;
    var j: nat := 0;
    while j < |ms2|
      invariant j <= |ms2|
      invariant m.log == log0 + PreviousRow(s, v, mode1, ms2[..j])
      invariant m.next == old(m.next) && m.startingPoint == old(m.startingPoint)
    {
      m.Add(Record.Previous(s, v.modes[mode1].id, v.modes[ms2[j]].id));
      assert PreviousRow(s, v, mode1, ms2[..j + 1]) == PreviousRow(s, v, mode1, ms2[..j]) + [Record.Previous(s, v.modes[mode1].id, v.modes[ms2[j]].id)];
      j := j + 1;
    }
    assert ms2[..j] == ms2;
  }

  /** One consecutive constraint: skipped unless both tasks have a mode on the machine, else the product. */
  method AddConsecutive(m: Model, d: SolverData, v: Vars, c: (nat, nat, nat))
    requires Sized(d, v) && HasSequences(d, v) && IsMachine(d, c.2)
    modifies m
    ensures m.log == old(m.log) + ConsecutiveBlock(d, v, c)
    ensures m.next == old(m.next) && m.startingPoint == old(m.startingPoint)
  {
    var s := v.sequences[c.2];
    var modes1 := MachineModesOf(d, c.2, c.0);
    var modes2 := MachineModesOf(d, c.2, c.1);
    if modes1 != [] && modes2 != [] {
      AddProduct(m, s, v, modes1, modes2);
    }
  }

  /** `for mode1, mode2 in product(modes1, modes2)`. */
  method AddProduct(m: Model, s: SequenceVar, v: Vars, modes1: seq<nat>, modes2: seq<nat>)
    requires ModesIn(modes1, |v.modes|) && ModesIn(modes2, |v.modes|)
    modifies m
    ensures m.log == old(m.log) + PreviousRows(s, v, modes1, modes2, |modes1|)
    ensures m.next == old(m.next) && m.startingPoint == old(m.startingPoint)
  {
    ghost var log0 := m.log;
    var i: nat := 0;
    while i < |modes1|
      invariant i <= |modes1|
      invariant m.log == log0 + PreviousRows(s, v, modes1, modes2, i)
      invariant m.next == old(m.next) && m.startingPoint == old(m.startingPoint)
    {
      AddPreviousRow(m, s, v, modes1[i], modes2);
      CpLog.AppendAssoc(log0, PreviousRows(s, v, modes1, modes2, i), PreviousRow(s, v, modes1[i], modes2));
      i := i + 1;
    }
  }

  /** `_consecutive_constraints`. */
  method ConsecutiveConstraints(m: Model, d: SolverData, v: Vars, cs: seq<(nat, nat, nat)>)
    requires Sized(d, v) && HasSequences(d, v) && ConsecutiveIn(d, cs)
    modifies m
    ensures m.log == old(m.log) + ConsecutiveRecords(d, v, cs)
    ensures m.next == old(m.next) && m.startingPoint == old(m.startingPoint)
  {
    ghost var log0 := m.log;
    var k: nat := 0;
    while k < |cs|
      invariant k <= |cs|
      invariant m.log == log0 + ConsecutiveRecords(d, v, cs[..k])
      invariant m.next == old(m.next) && m.startingPoint == old(m.startingPoint)
    {
      AddConsecutive(m, d, v, cs[k]);
      ghost var block := ConsecutiveBlock(d, v, cs[k]);
      CpLog.AppendAssoc(log0, ConsecutiveRecords(d, v, cs[..k]), block);
      ConsecutiveBlocksStep(d, v, cs, k);
      CpLog.FlattenStep(ConsecutiveBlocks(d, v, cs[..k]), block);
      k := k + 1;
    }
    assert cs[..k] == cs;
  }

  /**
   * For a consecutive constraint on a machine, every mode of the first task
   * and every mode of the second task on that machine are linked by a
   * `previous` record on the machine's sequence.
   */
  lemma {:induction false} ConsecutiveLinks(d: SolverData, v: Vars, cs: seq<(nat, nat, nat)>, k: nat, mode1: nat, mode2: nat)
    requires Sized(d, v) && HasSequences(d, v) && ConsecutiveIn(d, cs) && k < |cs|
    requires mode1 < |d.modes| && d.modes[mode1].task == cs[k].0 && cs[k].2 in d.modes[mode1].resources
    requires mode2 < |d.modes| && d.modes[mode2].task == cs[k].1 && cs[k].2 in d.modes[mode2].resources
    ensures Record.Previous(v.sequences[cs[k].2], v.modes[mode1].id, v.modes[mode2].id) in ConsecutiveRecords(d, v, cs)
  {
    var c := cs[k];
    var ms1 := MachineModesOf(d, c.2, c.0);
    var ms2 := MachineModesOf(d, c.2, c.1);
    MachineModesComplete(d, c.2, c.0, mode1);
    MachineModesComplete(d, c.2, c.1, mode2);
    assert mode1 in ms1 && mode2 in ms2;
    var i :| 0 <= i < |ms1| && ms1[i] == mode1;
    var j :| 0 <= j < |ms2| && ms2[j] == mode2;
    PreviousRowsContain(v.sequences[c.2], v, ms1, ms2, |ms1|, i, j);
    assert ConsecutiveBlocks(d, v, cs)[k] == ConsecutiveBlock(d, v, c);
    CpLog.FlattenMember(ConsecutiveBlocks(d, v, cs), k, Record.Previous(v.sequences[c.2], v.modes[mode1].id, v.modes[mode2].id));
  }

  /**
   * Conversely, every record of `_consecutive_constraints` links a mode of
   * the first task to a mode of the second task of one constraint, both on
   * its machine; so a constraint whose tasks do not both use the machine adds nothing.
   */
  lemma {:induction false} ConsecutiveOnly(d: SolverData, v: Vars, cs: seq<(nat, nat, nat)>, x: Record)
    returns (k: nat, mode1: nat, mode2: nat)
    requires Sized(d, v) && HasSequences(d, v) && ConsecutiveIn(d, cs)
    requires x in ConsecutiveRecords(d, v, cs)
    ensures k < |cs|
    ensures mode1 < |d.modes| && d.modes[mode1].task == cs[k].0 && cs[k].2 in d.modes[mode1].resources
    ensures mode2 < |d.modes| && d.modes[mode2].task == cs[k].1 && cs[k].2 in d.modes[mode2].resources
    ensures x == Record.Previous(v.sequences[cs[k].2], v.modes[mode1].id, v.modes[mode2].id)
  {
    k := CpLog.FlattenWhich(ConsecutiveBlocks(d, v, cs), x);
    var c := cs[k];
    var ms1 := MachineModesOf(d, c.2, c.0);
    var ms2 := MachineModesOf(d, c.2, c.1);
    var i, j := PreviousRowsOnly(v.sequences[c.2], v, ms1, ms2, |ms1|, x);
    mode1, mode2 := ms1[i], ms2[j];
  }

  // -------------------------------------------------------- add_constraints

  /** Everything `add_constraints` appends, in its order, with the dummies numbered from `next0`. */
  function ConstraintRecords(d: SolverData, v: Vars, c: CpoConstraintData, next0: nat): seq<Record>
    requires Sized(d, v) && HasSequences(d, v) && ConstraintsIn(d, c)
  {
    JobSpanRecords(d, v, next0, |d.jobs|) + AlternativeRecords(d, v, |d.tasks|)
    + NoOverlapRecords(d, v, c, |d.resources|) + RenewableRecords(d, v, |d.resources|)
    + NonRenewableRecords(d, v, |d.resources|) + AllTimingRecords(v, c)
    + IdenticalAndDifferentRecords(d, v, c) + IfThenRecords(v, c.ifThen)
    + ConsecutiveRecords(d, v, c.consecutive)
  }

  /** `add_constraints`: the nine builders in order. */
  method AddConstraints(m: Model, d: SolverData, v: Vars, c: CpoConstraintData)
    requires Sized(d, v) && HasSequences(d, v) && ConstraintsIn(d, c)
    modifies m
    ensures m.log == old(m.log) + ConstraintRecords(d, v, c, old(m.next))
    ensures m.next == old(m.next) + Dummies(d, |d.jobs|) && m.startingPoint == old(m.startingPoint)
  {
    ghost var log0, next0 := m.log, m.next;
    JobSpansTasks(m, d, v);
    ghost var acc := JobSpanRecords(d, v, next0, |d.jobs|);
    SelectOneMode(m, d, v);
    CpLog.AppendAssoc(log0, acc, AlternativeRecords(d, v, |d.tasks|));
    acc := acc + AlternativeRecords(d, v, |d.tasks|);
    MachinesNoOverlap(m, d, v, c);
    CpLog.AppendAssoc(log0, acc, NoOverlapRecords(d, v, c, |d.resources|));
    acc := acc + NoOverlapRecords(d, v, c, |d.resources|);
    RenewableCapacity(m, d, v);
    CpLog.AppendAssoc(log0, acc, RenewableRecords(d, v, |d.resources|));
    acc := acc + RenewableRecords(d, v, |d.resources|);
    NonRenewableCapacity(m, d, v);
    CpLog.AppendAssoc(log0, acc, NonRenewableRecords(d, v, |d.resources|));
    acc := acc + NonRenewableRecords(d, v, |d.resources|);
    TimingConstraints(m, v, c);
    CpLog.AppendAssoc(log0, acc, AllTimingRecords(v, c));
    acc := acc + AllTimingRecords(v, c);
    IdenticalAndDifferent(m, d, v, c);
    CpLog.AppendAssoc(log0, acc, IdenticalAndDifferentRecords(d, v, c));
    acc := acc + IdenticalAndDifferentRecords(d, v, c);
    IfThenConstraints(m, v, c.ifThen);
    CpLog.AppendAssoc(log0, acc, IfThenRecords(v, c.ifThen));
    acc := acc + IfThenRecords(v, c.ifThen);
    ConsecutiveConstraints(m, d, v, c.consecutive);
    CpLog.AppendAssoc(log0, acc, ConsecutiveRecords(d, v, c.consecutive));
  }
}
