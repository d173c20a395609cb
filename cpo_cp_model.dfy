/**
 * Reading results back from the CP Optimizer back end
 * (`pyjobshop/solvers/cpoptimizer/CPModel.py`): the status map, the decoding
 * of the engine's interval variable solutions into one `TaskData` per task,
 * and the parameters and result that `solve` assembles around the
 * (unmodelled) engine call.
 *
 * The engine's answer is an abstract status name plus the list of interval
 * variable solutions it reports, each with its name, presence, start, end
 * and size; `get_length()` is `end - start`.
 */
module CpoCpModel {
  import opened Wrappers
  import opened ProblemData
  import opened SolverData
  import opened Decimal
  import opened CpoLog
  import Solution
  import CpoVariables
  import OrCpModel

  // ------------------------------------------------------------------- status

  /** `_get_solve_status`. */
  function GetSolveStatus(status: string): (r: SolveStatus)
    ensures r == Optimal <==> status == "Optimal"
    ensures r == Feasible <==> status == "Feasible"
    ensures r == Infeasible <==> status == "Infeasible"
    ensures r == TimeLimit <==> status !in {"Optimal", "Feasible", "Infeasible"}
    ensures r != Unknown
  {
    if status == "Optimal" then Optimal
    else if status == "Feasible" then Feasible
    else if status == "Infeasible" then Infeasible
    else TimeLimit
  }

  /** The statuses after which `solve` decodes a solution. */
  predicate HasSolution(status: string)
  {
    status in {"Optimal", "Feasible"}
  }

  // ------------------------------------------------------------ variable names

  /** One interval variable solution as the engine reports it. */
  datatype VarSolution = VarSolution(name: string, present: bool, start: int, end: int, size: int)

  /** Why decoding raises: a mode name that `int` cannot read (`ValueError`), or a mode index outside `data.modes` (`IndexError`). */
  datatype DecodeError = InvalidName(name: string) | ModeOutOfRange(mode: int)

  /**
   * `map(int, rest.split("_"))` unpacked into two numbers: exactly two
   * pieces, each an integer literal.
   */
  function ParseIndices(rest: string): (r: Option<(int, int)>)
    ensures r.Some? <==> |Split(rest, '_')| == 2 && ParseInt(Split(rest, '_')[0]).Some? && ParseInt(Split(rest, '_')[1]).Some?
  {
    var pieces := Split(rest, '_');
    if |pieces| == 2 then
      match (ParseInt(pieces[0]), ParseInt(pieces[1]))
      case (Some(m), Some(t)) => Some((m, t))
      case _ => None
    else None
  }

  /** Reading a mode variable's name back gives its mode and task indices. */
  lemma ParseModeName(m: nat, t: nat)
    ensures var name := CpoVariables.ModeName(m, t);
            name != [] && name[0] == 'M' && ParseIndices(name[1..]) == Some((m, t))
  {
    var a, b := NatToString(m), NatToString(t);
    var name := CpoVariables.ModeName(m, t);
    assert name[1..] == a + ['_'] + b;
    assert forall i :: 0 <= i < |a| ==> a[i] != '_';
    assert forall i :: 0 <= i < |b| ==> b[i] != '_';
    SplitJoined(a, b, '_');
    ParseNatToString(m);
    ParseNatToString(t);
  }

  /** Job and task variable names do not start with `M`, so decoding skips them. */
  lemma OtherNames(k: nat)
    ensures CpoVariables.JobName(k)[0] != 'M' && CpoVariables.TaskName(k)[0] != 'M'
  {
  }

  // ----------------------------------------------------------------- decoding

  /** Decoding looks at present variables whose name starts with `M`. */
  predicate IsModeSolution(x: VarSolution)
  {
    x.present && x.name != [] && x.name[0] == 'M'
  }

  /** The (mode, task) pair such a variable names, when its name can be read. */
  function Parsed(x: VarSolution): Option<(int, int)>
  {
    if IsModeSolution(x) then ParseIndices(x.name[1..]) else None
  }

  /** A considered variable whose name cannot be read or names no mode. */
  predicate Faulty(d: SolverData, x: VarSolution)
  {
    IsModeSolution(x) && (Parsed(x).None? || Solution.PyIndex(d.modes, Parsed(x).value.0).None?)
  }

  /** A considered variable decoded as task `t`. */
  predicate Names(d: SolverData, x: VarSolution, t: int)
  {
    IsModeSolution(x) && !Faulty(d, x) && Parsed(x).value.1 == t
  }

  /**
   * The entry of a decoded variable: its mode with that mode's resources,
   * its start and end, idle time and overlap (break time).
   */
  function Entry(d: SolverData, x: VarSolution): (r: TaskData)
    requires IsModeSolution(x) && !Faulty(d, x)
    ensures var mode := Solution.PyIndex(d.modes, Parsed(x).value.0).value;
            && r.present && r.mode == Parsed(x).value.0 && r.resources == mode.resources
            && r.start == x.start && r.end == x.end
            && r.breaks == (x.end - x.start) - x.size
            && r.idle == x.size - mode.duration
  {
    var (modeIdx, _) := Parsed(x).value;
    var mode := Solution.PyIndex(d.modes, modeIdx).value;
    var overlap := (x.end - x.start) - x.size;
    var idle := (x.end - x.start) - mode.duration - overlap;
    TaskData(modeIdx, mode.resources, x.start, x.end, idle, overlap, true)
  }

  /** The error a faulty variable raises. */
  function ErrorOf(d: SolverData, x: VarSolution): DecodeError
    requires Faulty(d, x)
  {
    if Parsed(x).None? then InvalidName(x.name) else ModeOutOfRange(Parsed(x).value.0)
  }

  /** One pass of the first loop: record the variable's entry under its task, later ones overwriting. */
  function Step(d: SolverData, acc: map<int, TaskData>, x: VarSolution): Result<map<int, TaskData>, DecodeError>
  {
    if !IsModeSolution(x) then Ok(acc)
    else if Faulty(d, x) then Err(ErrorOf(d, x))
    else Ok(acc[Parsed(x).value.1 := Entry(d, x)])
  }

  /** The `tasks` dictionary after the first `n` variable solutions. */
  function DecodeMap(d: SolverData, xs: seq<VarSolution>, n: nat): Result<map<int, TaskData>, DecodeError>
    requires n <= |xs|
  {
    if n == 0 then Ok(map[])
    else
      match DecodeMap(d, xs, n - 1)
      case Err(e) => Err(e)
      case Ok(acc) => Step(d, acc, xs[n - 1])
  }

  /** The second loop and the final list: one entry per task, the placeholder where none was decoded. */
  function Assemble(d: SolverData, tasks: map<int, TaskData>): (r: seq<TaskData>)
    ensures |r| == |d.tasks|
  {
    seq(|d.tasks|, idx requires 0 <= idx < |d.tasks| => if idx in tasks then tasks[idx] else AbsentTask(d))
  }

  /** `_convert_to_solution` as a value. */
  function Convert(d: SolverData, xs: seq<VarSolution>): (r: Result<seq<TaskData>, DecodeError>)
    ensures r.Ok? ==> |r.value| == |d.tasks|
  {
    match DecodeMap(d, xs, |xs|)
    case Err(e) => Err(e)
    case Ok(tasks) => Ok(Assemble(d, tasks))
  }

  /** Decoding fails exactly when some considered variable is faulty, and with the first one's error. */
  lemma {:induction false} DecodeMapError(d: SolverData, xs: seq<VarSolution>, n: nat)
    requires n <= |xs|
    ensures DecodeMap(d, xs, n).Err? <==> exists i :: 0 <= i < n && Faulty(d, xs[i])
    ensures DecodeMap(d, xs, n).Err? ==>
              exists i :: 0 <= i < n && Faulty(d, xs[i]) && DecodeMap(d, xs, n).error == ErrorOf(d, xs[i])
                          && forall j :: 0 <= j < i ==> !Faulty(d, xs[j])
  {
    if n > 0 {
      DecodeMapError(d, xs, n - 1);
    }
  }

  /** Once decoding has failed it stays failed with the same error. */
  lemma {:induction false} DecodeMapFailed(d: SolverData, xs: seq<VarSolution>, k: nat, n: nat)
    requires k <= n <= |xs| && DecodeMap(d, xs, k).Err?
    ensures DecodeMap(d, xs, n) == DecodeMap(d, xs, k)
  {
    if k < n {
      DecodeMapFailed(d, xs, k, n - 1);
    }
  }

  /** A task has a decoded entry exactly when some considered variable names it. */
  lemma {:induction false} DecodeMapKeys(d: SolverData, xs: seq<VarSolution>, n: nat, t: int)
    requires n <= |xs| && DecodeMap(d, xs, n).Ok?
    ensures t in DecodeMap(d, xs, n).value <==> exists i :: 0 <= i < n && Names(d, xs[i], t)
  {
    if n > 0 {
      DecodeMapKeys(d, xs, n - 1, t);
    }
  }

  /** The entry of a task is that of the last variable naming it. */
  lemma {:induction false} DecodeMapValue(d: SolverData, xs: seq<VarSolution>, n: nat, t: int)
    requires n <= |xs| && DecodeMap(d, xs, n).Ok? && t in DecodeMap(d, xs, n).value
    ensures exists i :: 0 <= i < n && Names(d, xs[i], t) && DecodeMap(d, xs, n).value[t] == Entry(d, xs[i])
                        && forall j :: i < j < n ==> !Names(d, xs[j], t)
  {
    var x := xs[n - 1];
    if !Names(d, x, t) {
      DecodeMapValue(d, xs, n - 1, t);
    }
  }

  /**
   * The decoded solution: task `t` carries the entry of the last variable
   * naming it, or the placeholder `TaskData(num_modes, [], 0, 0, 0, 0,
   * False)` when no variable names it.
   */
  lemma ConvertEntry(d: SolverData, xs: seq<VarSolution>, t: nat)
    requires Convert(d, xs).Ok? && t < |d.tasks|
    ensures (forall i :: 0 <= i < |xs| ==> !Names(d, xs[i], t)) ==> Convert(d, xs).value[t] == AbsentTask(d)
    ensures (exists i :: 0 <= i < |xs| && Names(d, xs[i], t)) ==>
              exists i :: 0 <= i < |xs| && Names(d, xs[i], t) && Convert(d, xs).value[t] == Entry(d, xs[i])
                          && forall j :: i < j < |xs| ==> !Names(d, xs[j], t)
  {
    DecodeMapKeys(d, xs, |xs|, t);
    if t in DecodeMap(d, xs, |xs|).value {
      DecodeMapValue(d, xs, |xs|, t);
    }
  }

  /** The last variable naming a task that some variable names. */
  lemma LastNaming(d: SolverData, xs: seq<VarSolution>, t: nat, k: nat) returns (i: nat)
    requires Convert(d, xs).Ok? && t < |d.tasks| && k < |xs| && Names(d, xs[k], t)
    ensures k <= i < |xs| && Names(d, xs[i], t) && Convert(d, xs).value[t] == Entry(d, xs[i])
    ensures forall j :: i < j < |xs| ==> !Names(d, xs[j], t)
  {
    ConvertEntry(d, xs, t);
    i :| 0 <= i < |xs| && Names(d, xs[i], t) && Convert(d, xs).value[t] == Entry(d, xs[i])
         && forall j :: i < j < |xs| ==> !Names(d, xs[j], t);
  }

  /** The first loop of `_convert_to_solution`. */
  method DecodeTasks(d: SolverData, xs: seq<VarSolution>) returns (r: Result<map<int, TaskData>, DecodeError>)
    ensures r == DecodeMap(d, xs, |xs|)
  {
    var tasks: map<int, TaskData> := map[];
    var k: nat := 0;
    while k < |xs|
      invariant k <= |xs| && DecodeMap(d, xs, k) == Ok(tasks)
    {
      var x := xs[k];
      if x.present && x.name != [] && x.name[0] == 'M' {
        var parsed := ParseIndices(x.name[1..]);
        if parsed.None? {
          DecodeMapFailed(d, xs, k + 1, |xs|);
          return Err(InvalidName(x.name));
        }
        var (modeIdx, task) := parsed.value;
        var mode := Solution.PyIndex(d.modes, modeIdx);
        if mode.None? {
          DecodeMapFailed(d, xs, k + 1, |xs|);
          return Err(ModeOutOfRange(modeIdx));
        }
        var overlap := (x.end - x.start) - x.size;
        var idle := (x.end - x.start) - mode.value.duration - overlap;
        tasks := tasks[task := TaskData(modeIdx, mode.value.resources, x.start, x.end, idle, overlap, true)];
      }
      k := k + 1;
    }
    return Ok(tasks);
  }

  /** The second loop: every task index without an entry gets the placeholder. */
  method FillAbsent(d: SolverData, decoded: map<int, TaskData>) returns (tasks: map<int, TaskData>)
    ensures forall i :: i in tasks <==> i in decoded || 0 <= i < |d.tasks|
    ensures forall i :: i in tasks ==> tasks[i] == if i in decoded then decoded[i] else AbsentTask(d)
  {
    tasks := decoded;
    var idx: nat := 0;
    while idx < |d.tasks|
      invariant idx <= |d.tasks|
      invariant forall i :: i in tasks <==> i in decoded || 0 <= i < idx
      invariant forall i :: i in tasks ==> tasks[i] == if i in decoded then decoded[i] else AbsentTask(d)
    {
      if idx !in tasks {
        tasks := tasks[idx := AbsentTask(d)];
      }
      idx := idx + 1;
    }
  }

  /** `_convert_to_solution`. */
  method ConvertToSolution(d: SolverData, xs: seq<VarSolution>) returns (r: Result<seq<TaskData>, DecodeError>)
    ensures r == Convert(d, xs)
  {
    var decoded := DecodeTasks(d, xs);
    if decoded.Err? {
      return Err(decoded.error);
    }
    var tasks := FillAbsent(d, decoded.value);
    var solution := seq(|d.tasks|, idx requires 0 <= idx < |d.tasks| => tasks[idx]);
    assert solution == Assemble(d, decoded.value);
    return Ok(solution);
  }

  // ------------------------------------------ decoding a valuation of the model

  /** The solutions of the mode variables under `val`, named as `_make_mode_variables` names them. */
  function ModeSolutions(d: SolverData, modes: seq<IntervalVar>, val: Valuation): (r: seq<VarSolution>)
    requires |modes| == |d.modes| && forall k :: 0 <= k < |d.modes| ==> d.modes[k].task >= 0
    ensures |r| == |modes|
  {
    seq(|modes|, k requires 0 <= k < |modes| =>
      var iv := val(modes[k].id);
      VarSolution(CpoVariables.ModeName(k, d.modes[k].task), iv.present, iv.start, iv.end, iv.size))
  }

  /** Variable solutions whose names do not start with `M`, like the job and task variables'. */
  predicate Unnamed(others: seq<VarSolution>)
  {
    forall i :: 0 <= i < |others| ==> others[i].name == [] || others[i].name[0] != 'M'
  }

  /** The variable solutions of a valuation of the model: others first, then the mode variables'. */
  predicate ModelSolutions(d: SolverData, others: seq<VarSolution>, modes: seq<IntervalVar>, val: Valuation, xs: seq<VarSolution>)
  {
    && Indexed(d) && |modes| == |d.modes| && Unnamed(others)
    && xs == others + ModeSolutions(d, modes, val)
  }

  /** Mode variable `k`'s solution names task `t` exactly when it is present and mode `k` is of task `t`. */
  lemma ModeSolutionNames(d: SolverData, others: seq<VarSolution>, modes: seq<IntervalVar>, val: Valuation,
                          xs: seq<VarSolution>, i: nat, t: int)
    requires ModelSolutions(d, others, modes, val, xs) && i < |xs|
    ensures !Faulty(d, xs[i])
    ensures Names(d, xs[i], t) <==> i >= |others| && val(modes[i - |others|].id).present && d.modes[i - |others|].task == t
    ensures Names(d, xs[i], t) ==> Entry(d, xs[i]).mode == i - |others|
  {
    if i >= |others| {
      var k := i - |others|;
      assert xs[i] == ModeSolutions(d, modes, val)[k];
      ParseModeName(k, d.modes[k].task);
    } else {
      assert xs[i] == others[i];
    }
  }

  /** The entry of mode `m` scheduled as `iv`: its resources, idle time its size minus its duration, overlap its length minus its size. */
  function ModeEntry(d: SolverData, m: nat, iv: IntervalValue): TaskData
    requires m < |d.modes|
  {
    TaskData(m, d.modes[m].resources, iv.start, iv.end, iv.size - d.modes[m].duration, (iv.end - iv.start) - iv.size, true)
  }

  /** The entry a mode variable's solution decodes to. */
  lemma ModeSolutionEntry(d: SolverData, others: seq<VarSolution>, modes: seq<IntervalVar>, val: Valuation,
                          xs: seq<VarSolution>, i: nat, t: int)
    requires ModelSolutions(d, others, modes, val, xs) && i < |xs| && Names(d, xs[i], t)
    ensures var m := i - |others|;
            && 0 <= m < |d.modes| && d.modes[m].task == t && val(modes[m].id).present
            && Entry(d, xs[i]) == ModeEntry(d, m, val(modes[m].id))
  {
    ModeSolutionNames(d, others, modes, val, xs, i, t);
    assert xs[i] == ModeSolutions(d, modes, val)[i - |others|];
  }

  /** Decoding a valuation of the model never fails. */
  lemma ModelValuationOk(d: SolverData, others: seq<VarSolution>, modes: seq<IntervalVar>, val: Valuation, xs: seq<VarSolution>)
    requires ModelSolutions(d, others, modes, val, xs)
    ensures Convert(d, xs).Ok?
  {
    forall i | 0 <= i < |xs|
      ensures !Faulty(d, xs[i])
    {
      ModeSolutionNames(d, others, modes, val, xs, i, 0);
    }
    DecodeMapError(d, xs, |xs|);
  }

  /** A task none of whose modes' variables is present decodes to the placeholder. */
  lemma ModelAbsentTask(d: SolverData, others: seq<VarSolution>, modes: seq<IntervalVar>, val: Valuation, xs: seq<VarSolution>, t: nat)
    requires ModelSolutions(d, others, modes, val, xs) && t < |d.tasks|
    requires forall k :: 0 <= k < |d.modes| && d.modes[k].task == t ==> !val(modes[k].id).present
    ensures Convert(d, xs).Ok? && Convert(d, xs).value[t] == AbsentTask(d)
  {
    ModelValuationOk(d, others, modes, val, xs);
    forall i | 0 <= i < |xs|
      ensures !Names(d, xs[i], t)
    {
      ModeSolutionNames(d, others, modes, val, xs, i, t);
    }
    ConvertEntry(d, xs, t);
  }

  /**
   * A task with a present mode variable decodes with the last such mode:
   * its resources, and idle time its size minus the mode's duration.
   */
  lemma ModelPresentTask(d: SolverData, others: seq<VarSolution>, modes: seq<IntervalVar>, val: Valuation, xs: seq<VarSolution>,
                         t: nat, k: nat) returns (m: nat)
    requires ModelSolutions(d, others, modes, val, xs) && t < |d.tasks|
    requires k < |d.modes| && d.modes[k].task == t && val(modes[k].id).present
    ensures m < |d.modes| && d.modes[m].task == t && val(modes[m].id).present
    ensures Convert(d, xs).Ok? && Convert(d, xs).value[t] == ModeEntry(d, m, val(modes[m].id))
    ensures forall k' :: m < k' < |d.modes| && d.modes[k'].task == t ==> !val(modes[k'].id).present
  {
    ModelValuationOk(d, others, modes, val, xs);
    ModeSolutionNames(d, others, modes, val, xs, |others| + k, t);
    var i := LastNaming(d, xs, t, |others| + k);
    ModeSolutionEntry(d, others, modes, val, xs, i, t);
    m := i - |others|;
    LaterModesAbsent(d, others, modes, val, xs, i, t, m);
  }

  /** No variable after the `i`-th naming task `t` means no later mode of `t` is present. */
  lemma LaterModesAbsent(d: SolverData, others: seq<VarSolution>, modes: seq<IntervalVar>, val: Valuation,
                         xs: seq<VarSolution>, i: nat, t: int, m: nat)
    requires ModelSolutions(d, others, modes, val, xs) && i < |xs| && m == i - |others|
    requires forall j :: i < j < |xs| ==> !Names(d, xs[j], t)
    ensures forall k :: m < k < |d.modes| && d.modes[k].task == t ==> !val(modes[k].id).present
  {
    forall k | m < k < |d.modes| && d.modes[k].task == t
      ensures !val(modes[k].id).present
    {
      ModeSolutionNames(d, others, modes, val, xs, |others| + k, t);
    }
  }

  /** So task `t` is decoded as scheduled exactly when one of its modes' variables is present. */
  lemma ModelValuationDecodes(d: SolverData, others: seq<VarSolution>, modes: seq<IntervalVar>, val: Valuation, xs: seq<VarSolution>, t: nat)
    requires ModelSolutions(d, others, modes, val, xs) && t < |d.tasks|
    ensures Convert(d, xs).Ok?
    ensures Convert(d, xs).value[t].present <==> exists k :: 0 <= k < |d.modes| && d.modes[k].task == t && val(modes[k].id).present
  {
    ModelValuationOk(d, others, modes, val, xs);
    if exists k :: 0 <= k < |d.modes| && d.modes[k].task == t && val(modes[k].id).present {
      var k :| 0 <= k < |d.modes| && d.modes[k].task == t && val(modes[k].id).present;
      var _ := ModelPresentTask(d, others, modes, val, xs, t, k);
    } else {
      ModelAbsentTask(d, others, modes, val, xs, t);
    }
  }

  // ------------------------------------------------------------------- solve

  /**
   * The parameters of `solve`: the time limit, the log verbosity (`Terse`
   * when displaying, else `Quiet`) and the number of workers (`Auto` when
   * not given), then `kwargs`, which override.
   */
  function SolveParams(timeLimit: OrCpModel.ParamValue, display: bool, numWorkers: Option<int>,
                       kwargs: map<string, OrCpModel.ParamValue>): (r: map<string, OrCpModel.ParamValue>)
    ensures r.Keys == {"TimeLimit", "LogVerbosity", "Workers"} + kwargs.Keys
    ensures forall k :: k in kwargs ==> r[k] == kwargs[k]
    ensures "TimeLimit" !in kwargs ==> r["TimeLimit"] == timeLimit
    ensures "LogVerbosity" !in kwargs ==> r["LogVerbosity"] == OrCpModel.PText(if display then "Terse" else "Quiet")
    ensures "Workers" !in kwargs ==>
              r["Workers"] == if numWorkers.Some? then OrCpModel.PInt(numWorkers.value) else OrCpModel.PText("Auto")
  {
    var workers := match numWorkers
      case Some(w) => OrCpModel.PInt(w)
      case None => OrCpModel.PText("Auto");
    var defaults := map["TimeLimit" := timeLimit,
                        "LogVerbosity" := OrCpModel.PText(if display then "Terse" else "Quiet"),
                        "Workers" := workers];
    defaults + kwargs
  }

  /**
   * The result assembled from the engine's status name, objective value and
   * variable solutions; a decoding error propagates out of `solve`.
   */
  function SolveResultOf(d: SolverData, statusName: string, objectiveValue: int, xs: seq<VarSolution>)
    : (r: Result<OrCpModel.SolveResult, DecodeError>)
    ensures HasSolution(statusName) ==> (r.Ok? <==> Convert(d, xs).Ok?)
    ensures r.Ok? ==> r.value.status == GetSolveStatus(statusName)
    ensures r.Ok? && HasSolution(statusName) ==> r.value.best == Convert(d, xs).value && r.value.objective == Some(objectiveValue)
    ensures !HasSolution(statusName) ==> r == Ok(OrCpModel.SolveResult(None, GetSolveStatus(statusName), []))
  {
    if HasSolution(statusName) then
      match Convert(d, xs)
      case Err(e) => Err(e)
      case Ok(best) => Ok(OrCpModel.SolveResult(Some(objectiveValue), GetSolveStatus(statusName), best))
    else Ok(OrCpModel.SolveResult(None, GetSolveStatus(statusName), []))
  }

  /**
   * On a valuation of the model with at least one task, the result carries
   * a solution exactly when the status is optimal or feasible, and then one
   * entry per task.
   */
  lemma SolutionIffFeasible(d: SolverData, others: seq<VarSolution>, modes: seq<IntervalVar>, val: Valuation,
                            xs: seq<VarSolution>, statusName: string, objectiveValue: int)
    requires ModelSolutions(d, others, modes, val, xs) && |d.tasks| > 0
    ensures var r := SolveResultOf(d, statusName, objectiveValue, xs);
            && r.Ok?
            && (r.value.best != [] <==> r.value.status in {Optimal, Feasible})
            && (r.value.best != [] ==> |r.value.best| == |d.tasks|)
  {
    ModelValuationOk(d, others, modes, val, xs);
  }
}
