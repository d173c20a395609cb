/**
 * The variables of the CP Optimizer back end
 * (`pyjobshop/solvers/cpoptimizer/Variables.py`): one interval variable per
 * job (`J{idx}`), task (`T{idx}`) and mode (`M{idx}_{task}`), created in that
 * order and added to the model with their bounds, one sequence variable
 * (`S{idx}`) per machine, and the starting point of a warm start.
 *
 * Interval variables are numbered in creation order, so job `k` is variable
 * `base + k`, task `k` is `base + |jobs| + k`, and so on.
 */
module CpoVariables {
  import opened Wrappers
  import opened Constants
  import opened ProblemData
  import opened SolverUtils
  import opened SolverData
  import opened CpoLog
  import opened Decimal
  import CpLog

  function MinInt(a: int, b: int): int
  {
    if a <= b then a else b
  }

  /** The variables the constraint and objective builders read. */
  datatype Vars = Vars(
    jobs: seq<IntervalVar>,
    tasks: seq<IntervalVar>,
    modes: seq<IntervalVar>,
    sequences: map<nat, SequenceVar>)

  // ------------------------------------------------------------ job variables

  /** Every task of the list is optional; vacuously so for an empty list (`all(...)`, scanned in list order). */
  predicate AllOptional(d: SolverData, tasks: seq<int>)
    requires forall k :: 0 <= k < |tasks| ==> 0 <= tasks[k] < |d.tasks|
  {
    tasks == [] || (d.tasks[tasks[0]].optional && AllOptional(d, tasks[1..]))
  }

  /** The scan finds every task optional exactly when each one is. */
  lemma {:induction false} AllOptionalMeaning(d: SolverData, tasks: seq<int>)
    requires forall k :: 0 <= k < |tasks| ==> 0 <= tasks[k] < |d.tasks|
    ensures AllOptional(d, tasks) <==> forall k :: 0 <= k < |tasks| ==> d.tasks[tasks[k]].optional
  {
    if tasks != [] {
      var rest := tasks[1..];
      AllOptionalMeaning(d, rest);
      assert forall k :: 0 < k < |tasks| ==> tasks[k] == rest[k - 1];
    }
  }

  function JobName(idx: nat): string
  {
    "J" + NatToString(idx)
  }

  function JobBounds(job: Job): Bounds
  {
    NoBounds().(startMin := Some(job.releaseDate), endMax := Some(MinInt(job.deadline, MAX_VALUE)))
  }

  function JobVarOf(d: SolverData, idx: nat, base: nat): IntervalVar
    requires Indexed(d) && idx < |d.jobs|
  {
    IntervalVar(base + idx, AllOptional(d, d.jobs[idx].tasks))
  }

  function JobRecord(d: SolverData, idx: nat, base: nat): Record
    requires Indexed(d) && idx < |d.jobs|
  {
    Interval(JobVarOf(d, idx, base), JobName(idx), JobBounds(d.jobs[idx]))
  }

  /** The records of the first `n` jobs, in creation order. */
  function JobRecords(d: SolverData, base: nat, n: nat): (r: seq<Record>)
    requires Indexed(d) && n <= |d.jobs|
    ensures |r| == n && forall k :: 0 <= k < n ==> r[k] == JobRecord(d, k, base)
  {
    seq(n, k requires 0 <= k < n => JobRecord(d, k, base))
  }

  function JobVars(d: SolverData, base: nat, n: nat): (r: seq<IntervalVar>)
    requires Indexed(d) && n <= |d.jobs|
    ensures |r| == n && forall k :: 0 <= k < n ==> r[k] == JobVarOf(d, k, base)
  {
    seq(n, k requires 0 <= k < n => JobVarOf(d, k, base))
  }

  /** `_make_job_variables`. */
  method MakeJobVariables(m: Model, d: SolverData) returns (vars: seq<IntervalVar>)
    requires Indexed(d)
    modifies m
    ensures m.next == old(m.next) + |d.jobs|
    ensures m.log == old(m.log) + JobRecords(d, old(m.next), |d.jobs|)
    ensures vars == JobVars(d, old(m.next), |d.jobs|)
    ensures m.startingPoint == old(m.startingPoint)
  {
    ghost var base := m.next;
    ghost var log0 := m.log;
    vars := [];
    var idx := 0;
    while idx < |d.jobs|
      invariant idx <= |d.jobs| && m.next == base + idx
      invariant m.log == log0 + JobRecords(d, base, idx)
      invariant vars == JobVars(d, base, idx)
      invariant m.startingPoint == old(m.startingPoint)
    {
      var job := d.jobs[idx];
      var optional := AllOptional(d, job.tasks);
      var x := m.NewInterval(optional, JobName(idx), JobBounds(job));
      assert JobRecords(d, base, idx + 1) == JobRecords(d, base, idx) + [JobRecord(d, idx, base)];
      vars := vars + [x];
      idx := idx + 1;
    }
  }

  /**
   * Under the job records, a job with a non-optional task is present, and a
   * present job starts at or after its release date and ends by
   * min(deadline, MAX_VALUE).
   */
  lemma {:induction false} JobVarMeaning(d: SolverData, base: nat, val: Valuation, k: nat)
    requires Indexed(d) && k < |d.jobs| && Satisfies(JobRecords(d, base, |d.jobs|), val)
    ensures JobVarOf(d, k, base).optional <==> forall i :: 0 <= i < |d.jobs[k].tasks| ==> d.tasks[d.jobs[k].tasks[i]].optional
    ensures !AllOptional(d, d.jobs[k].tasks) ==> Present(val, base + k)
    ensures Present(val, base + k) ==>
              d.jobs[k].releaseDate <= val(base + k).start
              && val(base + k).end <= MinInt(d.jobs[k].deadline, MAX_VALUE)
  {
    AllOptionalMeaning(d, d.jobs[k].tasks);
    assert Holds(JobRecords(d, base, |d.jobs|)[k], val);
  }

  // ----------------------------------------------------------- task variables

  function TaskName(idx: nat): string
  {
    "T" + NatToString(idx)
  }

  predicate HasModes(d: SolverData, t: nat)
  {
    Task2Modes(d, t) != []
  }

  /** Each of the first `n` tasks has a mode. */
  predicate ModesUpTo(d: SolverData, n: nat)
  {
    forall k: nat :: k < n ==> HasModes(d, k)
  }

  /** `min(mode.duration for mode in task's modes)`. */
  function MinDuration(d: SolverData, t: nat): int
    requires HasModes(d, t)
  {
    CpLog.Min(DurationsOf(d.modes, Task2Modes(d, t)))
  }

  function TaskBounds(task: SolverTask, sizeMin: int): Bounds
  {
    Bounds(Some(task.earliestStart), Some(MinInt(task.latestStart, MAX_VALUE)),
           Some(task.earliestEnd), Some(MinInt(task.latestEnd, MAX_VALUE)),
           Some(sizeMin), None)
  }

  function TaskVarOf(d: SolverData, idx: nat, base: nat): IntervalVar
    requires idx < |d.tasks|
  {
    IntervalVar(base + idx, d.tasks[idx].optional)
  }

  function TaskRecord(d: SolverData, idx: nat, base: nat): Record
    requires idx < |d.tasks| && HasModes(d, idx)
  {
    Interval(TaskVarOf(d, idx, base), TaskName(idx), TaskBounds(d.tasks[idx], MinDuration(d, idx)))
  }

  function TaskRecords(d: SolverData, base: nat, n: nat): (r: seq<Record>)
    requires n <= |d.tasks| && ModesUpTo(d, n)
    ensures |r| == n
  {
    seq(n, k requires 0 <= k < n => TaskRecord(d, k, base))
  }

  function TaskVars(d: SolverData, base: nat, n: nat): (r: seq<IntervalVar>)
    requires n <= |d.tasks|
    ensures |r| == n && forall k :: 0 <= k < n ==> r[k] == TaskVarOf(d, k, base)
  {
    seq(n, k requires 0 <= k < n => TaskVarOf(d, k, base))
  }

  /**
   * `_make_task_variables`. A task without modes makes `min` raise
   * `ValueError`; the tasks before it have been added by then.
   */
  method MakeTaskVariables(m: Model, d: SolverData) returns (r: Result<seq<IntervalVar>, nat>)
    modifies m
    ensures r.Ok? ==>
      && ModesUpTo(d, |d.tasks|)
      && m.next == old(m.next) + |d.tasks|
      && m.log == old(m.log) + TaskRecords(d, old(m.next), |d.tasks|)
      && r.value == TaskVars(d, old(m.next), |d.tasks|)
    ensures r.Err? ==>
      && r.error < |d.tasks| && !HasModes(d, r.error) && ModesUpTo(d, r.error)
      && m.next == old(m.next) + r.error
      && m.log == old(m.log) + TaskRecords(d, old(m.next), r.error)
    ensures m.startingPoint == old(m.startingPoint)
  {
    ghost var base := m.next;
    ghost var log0 := m.log;
    var vars := [];
    var idx := 0;
    while idx < |d.tasks|
      invariant idx <= |d.tasks| && m.next == base + idx && ModesUpTo(d, idx)
      invariant m.log == log0 + TaskRecords(d, base, idx)
      invariant vars == TaskVars(d, base, idx)
      invariant m.startingPoint == old(m.startingPoint)
    {
      if Task2Modes(d, idx) == [] {
        return Err(idx);
      }
      var x := AddTaskVar(m, d, idx, base, log0);
      vars := vars + [x];
      idx := idx + 1;
    }
    r := Ok(vars);
  }

  /** The body of the loop of `_make_task_variables`, for a task with modes. */
  method AddTaskVar(m: Model, d: SolverData, idx: nat, ghost base: nat, ghost log0: seq<Record>) returns (x: IntervalVar)
    requires idx < |d.tasks| && HasModes(d, idx) && ModesUpTo(d, idx)
    requires m.next == base + idx && m.log == log0 + TaskRecords(d, base, idx)
    modifies m
    ensures ModesUpTo(d, idx + 1) && m.next == base + idx + 1
    ensures m.log == log0 + TaskRecords(d, base, idx + 1)
    ensures x == TaskVarOf(d, idx, base)
    ensures m.startingPoint == old(m.startingPoint)
  {
    var task := d.tasks[idx];
    var durations := DurationsOf(d.modes, Task2Modes(d, idx));
    x := m.NewInterval(task.optional, TaskName(idx), TaskBounds(task, CpLog.Min(durations)));
    assert TaskRecords(d, base, idx + 1) == TaskRecords(d, base, idx) + [TaskRecord(d, idx, base)];
  }

  /**
   * Under the task records, a non-optional task is present, and a present
   * task lies within its (clamped) start and end windows with a size at
   * least the shortest duration among its modes.
   */
  lemma {:induction false} TaskVarMeaning(d: SolverData, base: nat, val: Valuation, k: nat)
    requires k < |d.tasks| && ModesUpTo(d, |d.tasks|) && Satisfies(TaskRecords(d, base, |d.tasks|), val)
    ensures !d.tasks[k].optional ==> Present(val, base + k)
    ensures Present(val, base + k) ==>
              var v := val(base + k);
              var t := d.tasks[k];
              && t.earliestStart <= v.start <= MinInt(t.latestStart, MAX_VALUE)
              && t.earliestEnd <= v.end <= MinInt(t.latestEnd, MAX_VALUE)
              && v.start <= v.end
              && (exists i :: 0 <= i < |Task2Modes(d, k)| && v.size >= d.modes[Task2Modes(d, k)[i]].duration)
              && (forall i :: 0 <= i < |Task2Modes(d, k)| ==> MinDuration(d, k) <= d.modes[Task2Modes(d, k)[i]].duration)
              && v.size >= MinDuration(d, k)
  {
    assert Holds(TaskRecords(d, base, |d.tasks|)[k], val);
    var durations := DurationsOf(d.modes, Task2Modes(d, k));
    var i :| 0 <= i < |durations| && durations[i] == MinDuration(d, k);
    assert durations[i] == d.modes[Task2Modes(d, k)[i]].duration;
  }

  // ----------------------------------------------------------- mode variables

  function ModeName(idx: nat, task: nat): string
  {
    "M" + NatToString(idx) + "_" + NatToString(task)
  }

  /** The task's windows, size at least the duration, and exactly the duration without idle time. */
  function ModeBounds(mode: Mode, task: SolverTask): Bounds
  {
    Bounds(Some(task.earliestStart), Some(MinInt(task.latestStart, MAX_VALUE)),
           Some(task.earliestEnd), Some(MinInt(task.latestEnd, MAX_VALUE)),
           Some(mode.duration), if task.allowIdle then None else Some(mode.duration))
  }

  function ModeVarOf(idx: nat, base: nat): IntervalVar
  {
    IntervalVar(base + idx, true)
  }

  function ModeRecord(d: SolverData, idx: nat, base: nat): Record
    requires Indexed(d) && idx < |d.modes|
  {
    var mode := d.modes[idx];
    Interval(ModeVarOf(idx, base), ModeName(idx, mode.task), ModeBounds(mode, d.tasks[mode.task]))
  }

  function ModeRecords(d: SolverData, base: nat, n: nat): (r: seq<Record>)
    requires Indexed(d) && n <= |d.modes|
    ensures |r| == n && forall k :: 0 <= k < n ==> r[k] == ModeRecord(d, k, base)
  {
    seq(n, k requires 0 <= k < n => ModeRecord(d, k, base))
  }

  function ModeVars(base: nat, n: nat): (r: seq<IntervalVar>)
    ensures |r| == n && forall k :: 0 <= k < n ==> r[k] == ModeVarOf(k, base)
  {
    seq(n, k requires 0 <= k < n => ModeVarOf(k, base))
  }

  /** `_make_mode_variables`. */
  method MakeModeVariables(m: Model, d: SolverData) returns (vars: seq<IntervalVar>)
    requires Indexed(d)
    modifies m
    ensures m.next == old(m.next) + |d.modes|
    ensures m.log == old(m.log) + ModeRecords(d, old(m.next), |d.modes|)
    ensures vars == ModeVars(old(m.next), |d.modes|)
    ensures m.startingPoint == old(m.startingPoint)
  {
    ghost var base := m.next;
    ghost var log0 := m.log;
    vars := [];
    var idx := 0;
    while idx < |d.modes|
      invariant idx <= |d.modes| && m.next == base + idx
      invariant m.log == log0 + ModeRecords(d, base, idx)
      invariant vars == ModeVars(base, idx)
      invariant m.startingPoint == old(m.startingPoint)
    {
      var mode := d.modes[idx];
      var task := d.tasks[mode.task];
      var x := m.NewInterval(true, ModeName(idx, mode.task), ModeBounds(mode, task));
      assert ModeRecords(d, base, idx + 1) == ModeRecords(d, base, idx) + [ModeRecord(d, idx, base)];
      vars := vars + [x];
      idx := idx + 1;
    }
  }

  /**
   * Mode variables are optional; a present one lies within its task's
   * windows, is at least the mode's duration long, and exactly that long
   * when the task does not allow idle time.
   */
  lemma {:induction false} ModeVarMeaning(d: SolverData, base: nat, val: Valuation, k: nat)
    requires Indexed(d) && k < |d.modes| && Satisfies(ModeRecords(d, base, |d.modes|), val)
    ensures ModeVarOf(k, base).optional
    ensures Present(val, base + k) ==>
              var v := val(base + k);
              var t := d.tasks[d.modes[k].task];
              && t.earliestStart <= v.start <= MinInt(t.latestStart, MAX_VALUE)
              && t.earliestEnd <= v.end <= MinInt(t.latestEnd, MAX_VALUE)
              && d.modes[k].duration <= v.size <= v.end - v.start
              && (!t.allowIdle ==> v.size == d.modes[k].duration)
  {
    assert Holds(ModeRecords(d, base, |d.modes|)[k], val);
  }

  // ------------------------------------------------------- sequence variables

  predicate ModeVarsFor(d: SolverData, modeVars: seq<IntervalVar>)
  {
    |modeVars| == |d.modes|
  }

  /** `sequence_var(name=f"S{r}", types=tasks, vars=intervals)` for machine `r`. */
  function SequenceOf(d: SolverData, modeVars: seq<IntervalVar>, r: nat): SequenceVar
    requires ModeVarsFor(d, modeVars)
  {
    var modes := Resource2Modes(d, r);
    SequenceVar("S" + NatToString(r),
                seq(|modes|, k requires 0 <= k < |modes| => modeVars[modes[k]].id),
                seq(|modes|, k requires 0 <= k < |modes| => d.modes[modes[k]].task))
  }

  function SequenceRecords(d: SolverData, modeVars: seq<IntervalVar>, machines: seq<nat>): (r: seq<Record>)
    requires ModeVarsFor(d, modeVars)
    ensures |r| == |machines| && forall k :: 0 <= k < |machines| ==> r[k] == Sequence(SequenceOf(d, modeVars, machines[k]))
  {
    seq(|machines|, k requires 0 <= k < |machines| => Sequence(SequenceOf(d, modeVars, machines[k])))
  }

  /** The sequences of the listed machines, keyed by machine; a later key overwrites. */
  function SequenceMap(d: SolverData, modeVars: seq<IntervalVar>, machines: seq<nat>): map<nat, SequenceVar>
    requires ModeVarsFor(d, modeVars)
  {
    if machines == [] then map[]
    else
      var last := machines[|machines| - 1];
      SequenceMap(d, modeVars, machines[..|machines| - 1])[last := SequenceOf(d, modeVars, last)]
  }

  /** The map has exactly the listed machines as keys, each with its own sequence. */
  lemma {:induction false} SequenceMapContents(d: SolverData, modeVars: seq<IntervalVar>, machines: seq<nat>)
    requires ModeVarsFor(d, modeVars)
    ensures forall r :: r in SequenceMap(d, modeVars, machines) <==> r in machines
    ensures forall r :: r in machines ==> SequenceMap(d, modeVars, machines)[r] == SequenceOf(d, modeVars, r)
  {
    if machines != [] {
      var init := machines[..|machines| - 1];
      SequenceMapContents(d, modeVars, init);
      assert machines == init + [machines[|machines| - 1]];
    }
  }

  /** There is a sequence exactly for every machine, each its own. */
  lemma {:induction false} SequenceKeys(d: SolverData, modeVars: seq<IntervalVar>)
    requires ModeVarsFor(d, modeVars)
    ensures forall r :: r in SequenceMap(d, modeVars, MachineIdcs(d)) <==> IsMachine(d, r)
    ensures forall r :: IsMachine(d, r) ==> SequenceMap(d, modeVars, MachineIdcs(d))[r] == SequenceOf(d, modeVars, r)
  {
    SequenceMapContents(d, modeVars, MachineIdcs(d));
  }

  /** `_make_sequence_variables`: one sequence per machine, in machine order. */
  method MakeSequenceVariables(m: Model, d: SolverData, modeVars: seq<IntervalVar>) returns (vars: map<nat, SequenceVar>)
    requires ModeVarsFor(d, modeVars)
    modifies m
    ensures m.log == old(m.log) + SequenceRecords(d, modeVars, MachineIdcs(d))
    ensures vars == SequenceMap(d, modeVars, MachineIdcs(d))
    ensures m.next == old(m.next) && m.startingPoint == old(m.startingPoint)
  {
    var machines := MachineIdcs(d);
    ghost var log0 := m.log;
    vars := map[];
    var i: nat := 0;
    while i < |machines|
      invariant i <= |machines|
      invariant m.log == log0 + SequenceRecords(d, modeVars, machines[..i])
      invariant vars == SequenceMap(d, modeVars, machines[..i])
      invariant m.next == old(m.next) && m.startingPoint == old(m.startingPoint)
    {
      var idx := machines[i];
      var seqVar := AddSequence(m, d, modeVars, idx);
      SequencesNext(d, modeVars, machines, i, i + 1);
      CpLog.AppendAssoc(log0, SequenceRecords(d, modeVars, machines[..i]), [Sequence(seqVar)]);
      vars := vars[idx := seqVar];
      i := i + 1;
    }
    assert machines[..i] == machines;
  }

  /** The records and the map of the first `j = i + 1` machines extend those of the first `i` by machine `i`'s sequence. */
  lemma SequencesNext(d: SolverData, modeVars: seq<IntervalVar>, machines: seq<nat>, i: nat, j: nat)
    requires ModeVarsFor(d, modeVars) && j == i + 1 <= |machines|
    ensures SequenceRecords(d, modeVars, machines[..j]) == SequenceRecords(d, modeVars, machines[..i]) + [Sequence(SequenceOf(d, modeVars, machines[i]))]
    ensures SequenceMap(d, modeVars, machines[..j]) == SequenceMap(d, modeVars, machines[..i])[machines[i] := SequenceOf(d, modeVars, machines[i])]
  {
    assert machines[..j][..i] == machines[..i];
  }

  /** The body of the loop of `_make_sequence_variables`: the sequence of machine `idx`. */
  method AddSequence(m: Model, d: SolverData, modeVars: seq<IntervalVar>, idx: nat) returns (seqVar: SequenceVar)
    requires ModeVarsFor(d, modeVars)
    modifies m
    ensures seqVar == SequenceOf(d, modeVars, idx)
    ensures m.log == old(m.log) + [Sequence(seqVar)]
    ensures m.next == old(m.next) && m.startingPoint == old(m.startingPoint)
  {
    var modes := Resource2Modes(d, idx);
    var intervals := seq(|modes|, k requires 0 <= k < |modes| => modeVars[modes[k]].id);
    var tasks := seq(|modes|, k requires 0 <= k < |modes| => d.modes[modes[k]].task);
    seqVar := SequenceVar("S" + NatToString(idx), intervals, tasks);
    m.Add(Sequence(seqVar));
  }

  /**
   * The sequence of machine `r` lists exactly the mode variables of the modes
   * that use `r`, and its type list gives, position by position, each mode's task.
   */
  lemma {:induction false} SequenceAligned(d: SolverData, modeVars: seq<IntervalVar>, r: nat)
    requires ModeVarsFor(d, modeVars)
    ensures var s := SequenceOf(d, modeVars, r);
            && |s.types| == |s.intervals| == |Resource2Modes(d, r)|
            && forall k :: 0 <= k < |s.intervals| ==>
                 var mode := Resource2Modes(d, r)[k];
                 && r in d.modes[mode].resources
                 && s.intervals[k] == modeVars[mode].id
                 && s.types[k] == d.modes[mode].task
    ensures forall mode :: 0 <= mode < |d.modes| && r in d.modes[mode].resources ==>
              modeVars[mode].id in SequenceOf(d, modeVars, r).intervals
  {
    var modes := Resource2Modes(d, r);
    var s := SequenceOf(d, modeVars, r);
    forall mode | 0 <= mode < |d.modes| && r in d.modes[mode].resources
      ensures modeVars[mode].id in s.intervals
    {
      var k :| 0 <= k < |modes| && modes[k] == mode;
      assert s.intervals[k] == modeVars[mode].id;
    }
  }

  // -------------------------------------------------------------- all variables

  function VarsOf(d: SolverData, base: nat): Vars
    requires Indexed(d)
  {
    var mbase := base + |d.jobs| + |d.tasks|;
    Vars(JobVars(d, base, |d.jobs|), TaskVars(d, base + |d.jobs|, |d.tasks|), ModeVars(mbase, |d.modes|),
         SequenceMap(d, ModeVars(mbase, |d.modes|), MachineIdcs(d)))
  }

  /** `Variables.__init__`: the four makers in order; fails where the task maker fails. */
  method MakeVariables(m: Model, d: SolverData) returns (r: Result<Vars, nat>)
    requires Indexed(d)
    modifies m
    ensures r.Ok? ==> && ModesUpTo(d, |d.tasks|)
                      && m.log == old(m.log) + VariableRecords(d, old(m.next))
                      && r.value == VarsOf(d, old(m.next))
                      && m.next == old(m.next) + |d.jobs| + |d.tasks| + |d.modes|
    ensures r.Err? ==> r.error < |d.tasks| && !HasModes(d, r.error) && ModesUpTo(d, r.error)
    ensures m.startingPoint == old(m.startingPoint)
  {
    ghost var base := m.next;
    ghost var log0 := m.log;
    var jobs := MakeJobVariables(m, d);
    ghost var log1, next1 := m.log, m.next;
    var tasks := MakeTaskVariables(m, d);
    if tasks.Err? {
      return Err(tasks.error);
    }
    ghost var log2, next2 := m.log, m.next;
    var modes := MakeModeVariables(m, d);
    ghost var log3 := m.log;
    var sequences := MakeSequenceVariables(m, d, modes);
    VariableRecordsChain(log0, log1, log2, log3, m.log, JobRecords(d, base, |d.jobs|), TaskRecords(d, next1, |d.tasks|),
                         ModeRecords(d, next2, |d.modes|), SequenceRecords(d, ModeVars(next2, |d.modes|), MachineIdcs(d)));
    VariablesAt(d, base, next1, next2);
    r := Ok(Vars(jobs, tasks.value, modes, sequences));
  }

  /** The four makers' records, concatenated in creation order. */
  function VariableRecords(d: SolverData, base: nat): seq<Record>
    requires Indexed(d) && ModesUpTo(d, |d.tasks|)
  {
    var mbase := base + |d.jobs| + |d.tasks|;
    JobRecords(d, base, |d.jobs|) + TaskRecords(d, base + |d.jobs|, |d.tasks|) + ModeRecords(d, mbase, |d.modes|)
    + SequenceRecords(d, ModeVars(mbase, |d.modes|), MachineIdcs(d))
  }

  /** The records and variables of `base`, spelled with the two later offsets. */
  lemma VariablesAt(d: SolverData, base: nat, next1: nat, next2: nat)
    requires Indexed(d) && ModesUpTo(d, |d.tasks|)
    requires next1 == base + |d.jobs| && next2 == next1 + |d.tasks|
    ensures VariableRecords(d, base) == JobRecords(d, base, |d.jobs|) + TaskRecords(d, next1, |d.tasks|)
                                        + ModeRecords(d, next2, |d.modes|) + SequenceRecords(d, ModeVars(next2, |d.modes|), MachineIdcs(d))
    ensures VarsOf(d, base) == Vars(JobVars(d, base, |d.jobs|), TaskVars(d, next1, |d.tasks|), ModeVars(next2, |d.modes|),
                                    SequenceMap(d, ModeVars(next2, |d.modes|), MachineIdcs(d)))
  {
  }

  lemma VariableRecordsChain(log0: seq<Record>, log1: seq<Record>, log2: seq<Record>, log3: seq<Record>,
                             log4: seq<Record>, j: seq<Record>, t: seq<Record>, mo: seq<Record>, sq: seq<Record>)
    requires log1 == log0 + j && log2 == log1 + t && log3 == log2 + mo && log4 == log3 + sq
    ensures log4 == log0 + (j + t + mo + sq)
  {
    assert log4 == log0 + j + t + mo + sq;
  }

  // ---------------------------------------------------------------- warm start

  /** The solution entry of every task exists. */
  predicate Covers(d: SolverData, sol: seq<TaskData>)
  {
    Indexed(d) && |sol| >= |d.tasks|
  }

  /** The tasks of the list that are present in the solution, in list order. */
  function PresentTasks(tasks: seq<int>, sol: seq<TaskData>): (r: seq<nat>)
    requires forall k :: 0 <= k < |tasks| ==> 0 <= tasks[k] < |sol|
    ensures forall i :: 0 <= i < |r| ==> r[i] < |sol|
  {
    if tasks == [] then []
    else
      var init := PresentTasks(tasks[..|tasks| - 1], sol);
      assert forall k :: 0 <= k < |tasks| - 1 ==> tasks[..|tasks| - 1][k] == tasks[k];
      var last: nat := tasks[|tasks| - 1];
      if sol[last].present then init + [last] else init
  }

  /** `PresentTasks` keeps exactly the present tasks. */
  lemma {:induction false} PresentTasksMembers(tasks: seq<int>, sol: seq<TaskData>)
    requires forall k :: 0 <= k < |tasks| ==> 0 <= tasks[k] < |sol|
    ensures var r := PresentTasks(tasks, sol);
            && (forall i :: 0 <= i < |r| ==> sol[r[i]].present && r[i] in tasks)
            && (forall k :: 0 <= k < |tasks| && sol[tasks[k]].present ==> tasks[k] in r)
  {
    if tasks != [] {
      var init := tasks[..|tasks| - 1];
      PresentTasksMembers(init, sol);
      assert tasks == init + [tasks[|tasks| - 1]];
    }
  }

  function Starts(ts: seq<nat>, sol: seq<TaskData>): (r: seq<int>)
    requires forall i :: 0 <= i < |ts| ==> ts[i] < |sol|
    ensures |r| == |ts| && forall i :: 0 <= i < |ts| ==> r[i] == sol[ts[i]].start
  {
    seq(|ts|, i requires 0 <= i < |ts| => sol[ts[i]].start)
  }

  function Ends(ts: seq<nat>, sol: seq<TaskData>): (r: seq<int>)
    requires forall i :: 0 <= i < |ts| ==> ts[i] < |sol|
    ensures |r| == |ts| && forall i :: 0 <= i < |ts| ==> r[i] == sol[ts[i]].end
  {
    seq(|ts|, i requires 0 <= i < |ts| => sol[ts[i]].end)
  }

  /** `any(task.present for task in sol_tasks)`. */
  predicate AnyPresent(tasks: seq<int>, sol: seq<TaskData>)
    requires forall k :: 0 <= k < |tasks| ==> 0 <= tasks[k] < |sol|
  {
    exists k :: 0 <= k < |tasks| && sol[tasks[k]].present
  }

  /**
   * The hint of job `idx`: its presence, and the min start and max end over
   * its present tasks; `None` when no task is present, where `min` raises.
   */
  function JobHint(d: SolverData, idx: nat, x: IntervalVar, sol: seq<TaskData>): Option<IntervalHint>
    requires Covers(d, sol) && idx < |d.jobs|
  {
    var job := d.jobs[idx];
    var ts := PresentTasks(job.tasks, sol);
    if ts == [] then None
    else Some(IntervalHint(x.id, AnyPresent(job.tasks, sol), CpLog.Min(Starts(ts, sol)), CpLog.Max(Ends(ts, sol)), None))
  }

  /** The length hint of a solution task: its duration, end minus start. */
  function TaskHint(x: IntervalVar, t: TaskData): IntervalHint
  {
    IntervalHint(x.id, t.present, t.start, t.end, Some(t.end - t.start))
  }

  /** The hint of mode `idx`: present exactly when it is the mode the solution selected for its task. */
  function ModeHint(idx: nat, x: IntervalVar, t: TaskData): IntervalHint
  {
    IntervalHint(x.id, idx == t.mode, t.start, t.end, Some(t.end - t.start))
  }

  predicate VarsFor(d: SolverData, v: Vars)
  {
    |v.jobs| == |d.jobs| && |v.tasks| == |d.tasks| && |v.modes| == |d.modes|
  }

  /** Every one of the first `n` jobs has a present task. */
  predicate JobsHintable(d: SolverData, sol: seq<TaskData>, n: nat)
    requires Covers(d, sol) && n <= |d.jobs|
  {
    forall k: nat :: k < n ==> PresentTasks(d.jobs[k].tasks, sol) != []
  }

  function JobHints(d: SolverData, v: Vars, sol: seq<TaskData>, n: nat): (r: seq<IntervalHint>)
    requires Covers(d, sol) && VarsFor(d, v) && n <= |d.jobs| && JobsHintable(d, sol, n)
    ensures |r| == n && forall k {:trigger r[k]} :: 0 <= k < n ==> Some(r[k]) == JobHint(d, k, v.jobs[k], sol)
  {
    seq(n, k requires 0 <= k < n => JobHint(d, k, v.jobs[k], sol).value)
  }

  function TaskHints(d: SolverData, v: Vars, sol: seq<TaskData>, n: nat): (r: seq<IntervalHint>)
    requires Covers(d, sol) && VarsFor(d, v) && n <= |d.tasks|
    ensures |r| == n && forall k :: 0 <= k < n ==> r[k] == TaskHint(v.tasks[k], sol[k])
  {
    seq(n, k requires 0 <= k < n => TaskHint(v.tasks[k], sol[k]))
  }

  function ModeHints(d: SolverData, v: Vars, sol: seq<TaskData>, n: nat): (r: seq<IntervalHint>)
    requires Covers(d, sol) && VarsFor(d, v) && n <= |d.modes|
    ensures |r| == n && forall k :: 0 <= k < n ==> r[k] == ModeHint(k, v.modes[k], sol[d.modes[k].task])
  {
    seq(n, k requires 0 <= k < n => ModeHint(k, v.modes[k], sol[d.modes[k].task]))
  }

  /** The first job with no present task, where `warmstart` raises. */
  predicate FirstUnhintable(d: SolverData, sol: seq<TaskData>, idx: nat)
    requires Covers(d, sol)
  {
    idx < |d.jobs| && PresentTasks(d.jobs[idx].tasks, sol) == [] && JobsHintable(d, sol, idx)
  }

  /**
   * `warmstart`: hints every job, task and mode in that order and sets them
   * as the starting point. A job without a present task makes `min` raise
   * before the starting point is set, so the model is then unchanged.
   */
  method Warmstart(m: Model, d: SolverData, v: Vars, sol: seq<TaskData>) returns (r: Result<(), nat>)
    requires Covers(d, sol) && VarsFor(d, v)
    modifies m
    ensures r.Ok? ==> JobsHintable(d, sol, |d.jobs|)
                      && m.startingPoint == Some(JobHints(d, v, sol, |d.jobs|) + TaskHints(d, v, sol, |d.tasks|)
                                                 + ModeHints(d, v, sol, |d.modes|))
    ensures r.Err? ==> FirstUnhintable(d, sol, r.error) && m.startingPoint == old(m.startingPoint)
    ensures m.log == old(m.log) && m.next == old(m.next)
  {
    var jobs := HintJobs(d, v, sol);
    if jobs.Err? {
      return Err(jobs.error);
    }
    var tasks := HintTasks(d, v, sol);
    var modes := HintModes(d, v, sol);
    m.SetStartingPoint(jobs.value + tasks + modes);
    r := Ok(());
  }

  /** The job loop of `warmstart`. */
  method HintJobs(d: SolverData, v: Vars, sol: seq<TaskData>) returns (r: Result<seq<IntervalHint>, nat>)
    requires Covers(d, sol) && VarsFor(d, v)
    ensures r.Ok? ==> JobsHintable(d, sol, |d.jobs|) && r.value == JobHints(d, v, sol, |d.jobs|)
    ensures r.Err? ==> FirstUnhintable(d, sol, r.error)
  {
    var jobs := [];
    var idx: nat := 0;
    while idx < |d.jobs|
      invariant idx <= |d.jobs| && JobsHintable(d, sol, idx) && jobs == JobHints(d, v, sol, idx)
    {
      var hint := JobHint(d, idx, v.jobs[idx], sol);
      if hint.None? {
        return Err(idx);
      }
      JobHintsNext(d, v, sol, idx, idx + 1);
      jobs := jobs + [hint.value];
      idx := idx + 1;
    }
    r := Ok(jobs);
  }

  /** One more hintable job extends the hints by its own. */
  lemma JobHintsNext(d: SolverData, v: Vars, sol: seq<TaskData>, m: nat, n: nat)
    requires Covers(d, sol) && VarsFor(d, v) && n == m + 1 <= |d.jobs| && JobsHintable(d, sol, m)
    requires JobHint(d, m, v.jobs[m], sol).Some?
    ensures JobsHintable(d, sol, n)
    ensures JobHints(d, v, sol, n) == JobHints(d, v, sol, m) + [JobHint(d, m, v.jobs[m], sol).value]
  {
    assert PresentTasks(d.jobs[m].tasks, sol) != [];
  }

  /** The task loop of `warmstart`. */
  method HintTasks(d: SolverData, v: Vars, sol: seq<TaskData>) returns (tasks: seq<IntervalHint>)
    requires Covers(d, sol) && VarsFor(d, v)
    ensures tasks == TaskHints(d, v, sol, |d.tasks|)
  {
    tasks := [];
    var idx := 0;
    while idx < |d.tasks|
      invariant idx <= |d.tasks| && tasks == TaskHints(d, v, sol, idx)
    {
      tasks := tasks + [TaskHint(v.tasks[idx], sol[idx])];
      idx := idx + 1;
    }
  }

  /** The mode loop of `warmstart`. */
  method HintModes(d: SolverData, v: Vars, sol: seq<TaskData>) returns (modes: seq<IntervalHint>)
    requires Covers(d, sol) && VarsFor(d, v)
    ensures modes == ModeHints(d, v, sol, |d.modes|)
  {
    modes := [];
    var idx := 0;
    while idx < |d.modes|
      invariant idx <= |d.modes| && modes == ModeHints(d, v, sol, idx)
    {
      modes := modes + [ModeHint(idx, v.modes[idx], sol[d.modes[idx].task])];
      idx := idx + 1;
    }
  }

  /**
   * A job's hint exists exactly when one of its tasks is present; it is then
   * present, starts at the earliest start of a present task and ends at the
   * latest end of one.
   */
  lemma {:induction false} JobHintMeaning(d: SolverData, idx: nat, x: IntervalVar, sol: seq<TaskData>)
    requires Covers(d, sol) && idx < |d.jobs|
    ensures JobHint(d, idx, x, sol).Some? <==> AnyPresent(d.jobs[idx].tasks, sol)
    ensures JobHint(d, idx, x, sol).Some? ==>
              var h := JobHint(d, idx, x, sol).value;
              var tasks := d.jobs[idx].tasks;
              && h.x == x.id && h.present
              && (forall k :: 0 <= k < |tasks| && sol[tasks[k]].present ==> h.start <= sol[tasks[k]].start && sol[tasks[k]].end <= h.end)
              && (exists k :: 0 <= k < |tasks| && sol[tasks[k]].present && h.start == sol[tasks[k]].start)
              && (exists k :: 0 <= k < |tasks| && sol[tasks[k]].present && h.end == sol[tasks[k]].end)
  {
    var tasks := d.jobs[idx].tasks;
    PresentTasksNonEmpty(tasks, sol);
    if AnyPresent(tasks, sol) {
      EarliestPresentStart(tasks, sol);
      LatestPresentEnd(tasks, sol);
    }
  }

  /** Some task of the list is present exactly when the present tasks are not empty. */
  lemma {:induction false} PresentTasksNonEmpty(tasks: seq<int>, sol: seq<TaskData>)
    requires forall k :: 0 <= k < |tasks| ==> 0 <= tasks[k] < |sol|
    ensures PresentTasks(tasks, sol) != [] <==> AnyPresent(tasks, sol)
  {
    var ts := PresentTasks(tasks, sol);
    PresentTasksMembers(tasks, sol);
    if AnyPresent(tasks, sol) {
      var k :| 0 <= k < |tasks| && sol[tasks[k]].present;
      assert tasks[k] in ts;
    }
    if ts != [] {
      assert ts[0] in tasks;
      var k :| 0 <= k < |tasks| && tasks[k] == ts[0];
    }
  }

  /** The least start over the present tasks is the start of one of them and at most each of theirs. */
  lemma {:induction false} EarliestPresentStart(tasks: seq<int>, sol: seq<TaskData>)
    requires forall k :: 0 <= k < |tasks| ==> 0 <= tasks[k] < |sol|
    requires PresentTasks(tasks, sol) != []
    ensures var start := CpLog.Min(Starts(PresentTasks(tasks, sol), sol));
            && (forall k :: 0 <= k < |tasks| && sol[tasks[k]].present ==> start <= sol[tasks[k]].start)
            && (exists k :: 0 <= k < |tasks| && sol[tasks[k]].present && start == sol[tasks[k]].start)
  {
    var ts := PresentTasks(tasks, sol);
    var starts := Starts(ts, sol);
    var start := CpLog.Min(starts);
    PresentTasksMembers(tasks, sol);
    var i :| 0 <= i < |starts| && starts[i] == start;
    assert ts[i] in tasks;
    var ki :| 0 <= ki < |tasks| && tasks[ki] == ts[i];
    assert sol[tasks[ki]].present && start == sol[tasks[ki]].start;
    forall k | 0 <= k < |tasks| && sol[tasks[k]].present
      ensures start <= sol[tasks[k]].start
    {
      assert tasks[k] in ts;
      var p :| 0 <= p < |ts| && ts[p] == tasks[k];
      assert starts[p] == sol[tasks[k]].start;
    }
  }

  /** The greatest end over the present tasks is the end of one of them and at least each of theirs. */
  lemma {:induction false} LatestPresentEnd(tasks: seq<int>, sol: seq<TaskData>)
    requires forall k :: 0 <= k < |tasks| ==> 0 <= tasks[k] < |sol|
    requires PresentTasks(tasks, sol) != []
    ensures var end := CpLog.Max(Ends(PresentTasks(tasks, sol), sol));
            && (forall k :: 0 <= k < |tasks| && sol[tasks[k]].present ==> sol[tasks[k]].end <= end)
            && (exists k :: 0 <= k < |tasks| && sol[tasks[k]].present && end == sol[tasks[k]].end)
  {
    var ts := PresentTasks(tasks, sol);
    var ends := Ends(ts, sol);
    var end := CpLog.Max(ends);
    PresentTasksMembers(tasks, sol);
    var j :| 0 <= j < |ends| && ends[j] == end;
    assert ts[j] in tasks;
    var kj :| 0 <= kj < |tasks| && tasks[kj] == ts[j];
    assert sol[tasks[kj]].present && end == sol[tasks[kj]].end;
    forall k | 0 <= k < |tasks| && sol[tasks[k]].present
      ensures sol[tasks[k]].end <= end
    {
      assert tasks[k] in ts;
      var p :| 0 <= p < |ts| && ts[p] == tasks[k];
      assert ends[p] == sol[tasks[k]].end;
    }
  }

  /** A mode's hinted presence is true exactly for the mode the solution selected; all hints carry the task's times. */
  lemma {:induction false} ModeHintsMeaning(d: SolverData, v: Vars, sol: seq<TaskData>, k: nat)
    requires Covers(d, sol) && VarsFor(d, v) && k < |d.modes|
    ensures var h := ModeHints(d, v, sol, |d.modes|)[k];
            var t := sol[d.modes[k].task];
            && h.x == v.modes[k].id
            && (h.present <==> t.mode == k)
            && h.start == t.start && h.end == t.end && h.length == Some(t.end - t.start)
  {
  }
}
