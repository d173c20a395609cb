/**
 * Reading results back from the OR-Tools back end
 * (`pyjobshop/solvers/ortools/CPModel.py`): the status map, the decoding of
 * a solver valuation into one `TaskData` per task, and the parameters and
 * result that `solve` assembles around the (unmodelled) engine call.
 *
 * The engine's answer is an abstract status name plus a valuation of the
 * model's variables; `cp_solver.value(x)` is `Eval` under that valuation.
 */
module OrCpModel {
  import opened Wrappers
  import opened ProblemData
  import opened SolverData
  import opened CpLog
  import OrConstraints

  // ------------------------------------------------------------------- status

  /** `_get_solve_status`. */
  function GetSolveStatus(status: string): (r: SolveStatus)
    ensures r == Optimal <==> status == "OPTIMAL"
    ensures r == Feasible <==> status == "FEASIBLE"
    ensures r == Infeasible <==> status == "INFEASIBLE"
    ensures r == Unknown <==> status == "MODEL_INVALID"
    ensures r == TimeLimit <==> status !in {"OPTIMAL", "FEASIBLE", "INFEASIBLE", "MODEL_INVALID"}
  {
    if status == "OPTIMAL" then Optimal
    else if status == "FEASIBLE" then Feasible
    else if status == "INFEASIBLE" then Infeasible
    else if status == "MODEL_INVALID" then Unknown
    else TimeLimit
  }

  /** The statuses after which `solve` decodes a solution. */
  predicate HasSolution(status: string)
  {
    status in {"OPTIMAL", "FEASIBLE"}
  }

  // ----------------------------------------------------------------- decoding

  /** The task variables `_convert_to_solution` reads. */
  datatype DecodeVars = DecodeVars(start: Var, end: Var, idle: Var, breaks: Var, present: Lit)

  /** `cp_solver.value(lit)`: 0 or 1 on a 0/1 variable, `1 - v` for a negation. */
  function LitValue(l: Lit, val: Valuation): int
  {
    Eval(Bool(l), val)
  }

  /** The literals of the listed modes are all known. */
  predicate ModesIn(modes: seq<nat>, lits: seq<Lit>)
  {
    forall k :: 0 <= k < |modes| ==> modes[k] < |lits|
  }

  /** The first of `modes` whose literal has a non-zero value, if any. */
  function FirstSelected(modes: seq<nat>, lits: seq<Lit>, val: Valuation): (r: Option<nat>)
    requires ModesIn(modes, lits)
    ensures r.Some? ==> r.value in modes && LitValue(lits[r.value], val) != 0
  {
    if modes == [] then None
    else if LitValue(lits[modes[0]], val) != 0 then Some(modes[0])
    else FirstSelected(modes[1..], lits, val)
  }

  /** No mode is found exactly when every literal of the modes is 0. */
  lemma {:induction false} FirstSelectedNone(modes: seq<nat>, lits: seq<Lit>, val: Valuation)
    requires ModesIn(modes, lits)
    ensures FirstSelected(modes, lits, val).None? <==> forall k :: 0 <= k < |modes| ==> LitValue(lits[modes[k]], val) == 0
  {
    if modes != [] {
      FirstSelectedNone(modes[1..], lits, val);
      assert forall k :: 1 <= k < |modes| ==> modes[k] == modes[1..][k - 1];
    }
  }

  /** The mode found is the first one, in list order, whose literal is set. */
  lemma {:induction false} FirstSelectedIsFirst(modes: seq<nat>, lits: seq<Lit>, val: Valuation)
    requires ModesIn(modes, lits) && FirstSelected(modes, lits, val).Some?
    ensures exists i :: 0 <= i < |modes| && modes[i] == FirstSelected(modes, lits, val).value
                        && LitValue(lits[modes[i]], val) != 0
                        && forall j :: 0 <= j < i ==> LitValue(lits[modes[j]], val) == 0
  {
    if LitValue(lits[modes[0]], val) == 0 {
      FirstSelectedIsFirst(modes[1..], lits, val);
      var i :| 0 <= i < |modes[1..]| && modes[1..][i] == FirstSelected(modes[1..], lits, val).value
               && LitValue(lits[modes[1..][i]], val) != 0
               && forall j :: 0 <= j < i ==> LitValue(lits[modes[1..][j]], val) == 0;
      assert modes[i + 1] == modes[1..][i];
      assert forall j :: 1 <= j < i + 1 ==> modes[j] == modes[1..][j - 1];
    }
  }

  /** What task `t` contributes: the placeholder if absent, its selected mode's data, or nothing. */
  function DecodeTask(d: SolverData, tv: DecodeVars, lits: seq<Lit>, val: Valuation, t: int): Option<TaskData>
    requires |lits| == |d.modes|
  {
    if LitValue(tv.present, val) == 0 then Some(AbsentTask(d))
    else
      match FirstSelected(Task2Modes(d, t), lits, val)
      case None => None
      case Some(m) => Some(TaskData(m, d.modes[m].resources, val(tv.start), val(tv.end), val(tv.idle), val(tv.breaks), true))
  }

  function OptionList(o: Option<TaskData>): seq<TaskData>
  {
    match o
    case None => []
    case Some(x) => [x]
  }

  /** What each task contributes, in task order: its entry, or nothing when no mode is selected. */
  function Entries(d: SolverData, tvs: seq<DecodeVars>, lits: seq<Lit>, val: Valuation): (r: seq<Option<TaskData>>)
    requires |lits| == |d.modes|
    ensures |r| == |tvs| && forall t :: 0 <= t < |tvs| ==> r[t] == DecodeTask(d, tvs[t], lits, val, t)
  {
    seq(|tvs|, t requires 0 <= t < |tvs| => DecodeTask(d, tvs[t], lits, val, t))
  }

  /** The present entries, in order. */
  function Flatten(entries: seq<Option<TaskData>>): seq<TaskData>
  {
    if entries == [] then []
    else Flatten(entries[..|entries| - 1]) + OptionList(entries[|entries| - 1])
  }

  /** The solution list `_convert_to_solution` builds. */
  function Decoded(d: SolverData, tvs: seq<DecodeVars>, lits: seq<Lit>, val: Valuation): seq<TaskData>
    requires |lits| == |d.modes|
  {
    Flatten(Entries(d, tvs, lits, val))
  }

  /** The inner loop: the first mode of the task whose literal is set. */
  method SelectedMode(modes: seq<nat>, lits: seq<Lit>, val: Valuation) returns (r: Option<nat>)
    requires ModesIn(modes, lits)
    ensures r == FirstSelected(modes, lits, val)
  {
    var k := 0;
    while k < |modes|
      invariant k <= |modes| && FirstSelected(modes[k..], lits, val) == FirstSelected(modes, lits, val)
    {
      if LitValue(lits[modes[k]], val) != 0 {
        return Some(modes[k]);
      }
      assert modes[k..][1..] == modes[k + 1..];
      k := k + 1;
    }
    return None;
  }

  /** `_convert_to_solution`. */
  method ConvertToSolution(d: SolverData, tvs: seq<DecodeVars>, lits: seq<Lit>, val: Valuation) returns (tasks: seq<TaskData>)
    requires |tvs| == |d.tasks| && |lits| == |d.modes|
    ensures tasks == Decoded(d, tvs, lits, val)
  {
    ghost var entries := Entries(d, tvs, lits, val);
    tasks := [];
    var t: nat := 0;
    while t < |d.tasks|
      invariant t <= |d.tasks| && tasks == Flatten(entries[..t])
    {
      var entry := ConvertTask(d, tvs[t], lits, val, t);
      assert entry == entries[t];
      FlattenNext(entries, t, t + 1);
      tasks := tasks + OptionList(entry);
      t := t + 1;
    }
    assert entries[..t] == entries;
  }

  /** Flattening one more entry appends what it holds. */
  lemma FlattenNext(entries: seq<Option<TaskData>>, m: nat, n: nat)
    requires n == m + 1 <= |entries|
    ensures Flatten(entries[..n]) == Flatten(entries[..m]) + OptionList(entries[m])
  {
    assert entries[..n][..m] == entries[..m];
  }

  /** One pass of the loop body: the placeholder for an absent task (`continue`), else the first selected mode (`break`). */
  method ConvertTask(d: SolverData, tv: DecodeVars, lits: seq<Lit>, val: Valuation, t: int) returns (entry: Option<TaskData>)
    requires |lits| == |d.modes|
    ensures entry == DecodeTask(d, tv, lits, val, t)
  {
    if LitValue(tv.present, val) == 0 {
      return Some(AbsentTask(d));
    }
    var selected := SelectedMode(Task2Modes(d, t), lits, val);
    if selected.Some? {
      var m := selected.value;
      return Some(TaskData(m, d.modes[m].resources, val(tv.start), val(tv.end), val(tv.idle), val(tv.breaks), true));
    }
    return None;
  }

  /** Every entry is present. */
  predicate AllPresent(entries: seq<Option<TaskData>>)
  {
    forall t :: 0 <= t < |entries| ==> entries[t].Some?
  }

  /** Flattening keeps at most one item per entry, and exactly one each when every entry is present. */
  lemma {:induction false} FlattenLength(entries: seq<Option<TaskData>>)
    ensures |Flatten(entries)| <= |entries|
    ensures |Flatten(entries)| == |entries| <==> AllPresent(entries)
  {
    if entries != [] {
      var init, last := entries[..|entries| - 1], entries[|entries| - 1];
      FlattenLength(init);
      assert AllPresent(entries) <==> AllPresent(init) && last.Some? by {
        assert forall t :: 0 <= t < |init| ==> init[t] == entries[t];
      }
    }
  }

  /** With every entry present, item `t` of the flattening is entry `t`'s value. */
  lemma {:induction false} FlattenEntry(entries: seq<Option<TaskData>>, t: nat)
    requires AllPresent(entries) && t < |entries|
    ensures |Flatten(entries)| == |entries|
    ensures Flatten(entries)[t] == entries[t].value
  {
    FlattenLength(entries);
    var init := entries[..|entries| - 1];
    assert AllPresent(init) by {
      assert forall k :: 0 <= k < |init| ==> init[k] == entries[k];
    }
    FlattenLength(init);
    if t < |init| {
      FlattenEntry(init, t);
    }
  }

  /** Every present task has a mode whose literal is set. */
  predicate Complete(d: SolverData, tvs: seq<DecodeVars>, lits: seq<Lit>, val: Valuation)
    requires |lits| == |d.modes|
  {
    forall t :: 0 <= t < |tvs| ==> DecodeTask(d, tvs[t], lits, val, t).Some?
  }

  /** One entry per task exactly when every present task has a selected mode. */
  lemma {:induction false} DecodedLength(d: SolverData, tvs: seq<DecodeVars>, lits: seq<Lit>, val: Valuation)
    requires |lits| == |d.modes|
    ensures |Decoded(d, tvs, lits, val)| <= |tvs|
    ensures |Decoded(d, tvs, lits, val)| == |tvs| <==> Complete(d, tvs, lits, val)
  {
    var entries := Entries(d, tvs, lits, val);
    FlattenLength(entries);
    assert AllPresent(entries) <==> Complete(d, tvs, lits, val);
  }

  /** With every present task decoded, entry `t` is task `t`'s. */
  lemma {:induction false} DecodedEntry(d: SolverData, tvs: seq<DecodeVars>, lits: seq<Lit>, val: Valuation, t: nat)
    requires |lits| == |d.modes| && t < |tvs| && Complete(d, tvs, lits, val)
    ensures |Decoded(d, tvs, lits, val)| == |tvs|
    ensures Decoded(d, tvs, lits, val)[t] == DecodeTask(d, tvs[t], lits, val, t).value
  {
    var entries := Entries(d, tvs, lits, val);
    assert AllPresent(entries);
    FlattenEntry(entries, t);
  }

  /** An absent task decodes to the placeholder `TaskData(num_modes, [], 0, 0, 0, 0, False)`. */
  lemma {:induction false} AbsentDecoded(d: SolverData, tv: DecodeVars, lits: seq<Lit>, val: Valuation, t: int)
    requires |lits| == |d.modes| && IsBool(val, tv.present) && !LitTrue(tv.present, val)
    ensures DecodeTask(d, tv, lits, val, t) == Some(TaskData(|d.modes|, [], 0, 0, 0, 0, false))
  {
    BoolValue(tv.present, val);
  }

  /**
   * A present task decodes with the first of its modes, in `task2modes`
   * order, whose literal is set: that mode's resources and the task's start,
   * end, idle time and break time.
   */
  lemma {:induction false} PresentDecoded(d: SolverData, tv: DecodeVars, lits: seq<Lit>, val: Valuation, t: int)
    requires |lits| == |d.modes| && IsBool(val, tv.present) && LitTrue(tv.present, val)
    requires DecodeTask(d, tv, lits, val, t).Some?
    ensures var x := DecodeTask(d, tv, lits, val, t).value;
            var modes := Task2Modes(d, t);
            && x.present && 0 <= x.mode < |d.modes| && d.modes[x.mode].task == t
            && x.resources == d.modes[x.mode].resources
            && x.start == val(tv.start) && x.end == val(tv.end) && x.idle == val(tv.idle) && x.breaks == val(tv.breaks)
            && exists i :: 0 <= i < |modes| && modes[i] == x.mode && LitValue(lits[x.mode], val) != 0
                           && forall j :: 0 <= j < i ==> LitValue(lits[modes[j]], val) == 0
  {
    BoolValue(tv.present, val);
    FirstSelectedIsFirst(Task2Modes(d, t), lits, val);
  }

  // ------------------------------------------ decoding a valuation of the model

  /** The decode variables carry the presences of the constraint builder's task variables. */
  predicate SamePresence(tvs: seq<DecodeVars>, v: OrConstraints.Vars)
  {
    |tvs| == |v.tasks| && forall t :: 0 <= t < |tvs| ==> tvs[t].present == v.tasks[t].present
  }

  /**
   * On a valuation satisfying `_select_one_mode`'s records, a present task
   * has exactly one selected mode, so it decodes with that mode.
   */
  lemma {:induction false} SelectedTaskDecodes(d: SolverData, v: OrConstraints.Vars, tvs: seq<DecodeVars>, val: Valuation, t: nat)
    requires OrConstraints.SelectReady(d, v) && OrConstraints.TasksBool(v, val) && OrConstraints.ModesBool(v, val)
    requires Satisfies(OrConstraints.SelectRecords(d, v, |d.tasks|), val)
    requires SamePresence(tvs, v) && |v.modes| == |d.modes| && t < |d.tasks|
    ensures DecodeTask(d, tvs[t], v.modes, val, t).Some?
    ensures LitTrue(v.tasks[t].present, val) ==> LitTrue(v.modes[DecodeTask(d, tvs[t], v.modes, val, t).value.mode], val)
  {
    OrConstraints.SelectOneModeMeaning(d, v, val, t);
    BoolValue(v.tasks[t].present, val);
    if LitTrue(v.tasks[t].present, val) {
      var m :| 0 <= m < |d.modes| && d.modes[m].task == t && LitTrue(v.modes[m], val);
      BoolValue(v.modes[m], val);
      ModeOfTaskSelected(d, t, v.modes, val, m);
      var r := FirstSelected(Task2Modes(d, t), v.modes, val);
      BoolValue(v.modes[r.value], val);
    }
  }

  /** A mode of task `t` whose literal is set makes the scan over `task2modes(t)` find one. */
  lemma {:induction false} ModeOfTaskSelected(d: SolverData, t: int, lits: seq<Lit>, val: Valuation, m: nat)
    requires |lits| == |d.modes| && m < |d.modes| && d.modes[m].task == t && LitValue(lits[m], val) != 0
    ensures ModesIn(Task2Modes(d, t), lits) && FirstSelected(Task2Modes(d, t), lits, val).Some?
  {
    var modes := Task2Modes(d, t);
    assert m in modes;
    var i :| 0 <= i < |modes| && modes[i] == m;
    FirstSelectedNone(modes, lits, val);
  }

  /** So a valuation of the model decodes to exactly one entry per task, in task order. */
  lemma {:induction false} ModelValuationDecodes(d: SolverData, v: OrConstraints.Vars, tvs: seq<DecodeVars>, val: Valuation)
    requires OrConstraints.SelectReady(d, v) && OrConstraints.TasksBool(v, val) && OrConstraints.ModesBool(v, val)
    requires Satisfies(OrConstraints.SelectRecords(d, v, |d.tasks|), val)
    requires SamePresence(tvs, v) && |v.modes| == |d.modes|
    ensures |Decoded(d, tvs, v.modes, val)| == |d.tasks|
  {
    forall t | 0 <= t < |d.tasks|
      ensures DecodeTask(d, tvs[t], v.modes, val, t).Some?
    {
      SelectedTaskDecodes(d, v, tvs, val, t);
    }
    DecodedLength(d, tvs, v.modes, val);
  }

  // ------------------------------------------------------------------- solve

  /** A solver parameter value. */
  datatype ParamValue = PInt(i: int) | PBool(b: bool) | PReal(r: real) | PText(s: string) | PInfinite

  /**
   * The parameter dictionary of `solve`: the time limit, the display flag and
   * the number of workers (0, all cores, when not given), then `kwargs`,
   * which override.
   */
  function SolveParams(timeLimit: ParamValue, display: bool, numWorkers: Option<int>, kwargs: map<string, ParamValue>): (r: map<string, ParamValue>)
    ensures r.Keys == {"max_time_in_seconds", "log_search_progress", "num_workers"} + kwargs.Keys
    ensures forall k :: k in kwargs ==> r[k] == kwargs[k]
    ensures "max_time_in_seconds" !in kwargs ==> r["max_time_in_seconds"] == timeLimit
    ensures "log_search_progress" !in kwargs ==> r["log_search_progress"] == PBool(display)
    ensures "num_workers" !in kwargs ==> r["num_workers"] == PInt(numWorkers.GetOr(0))
  {
    var defaults := map["max_time_in_seconds" := timeLimit, "log_search_progress" := PBool(display),
                        "num_workers" := PInt(numWorkers.GetOr(0))];
    defaults + kwargs
  }

  /** What `solve` returns; `None` stands for an infinite objective value. */
  datatype SolveResult = SolveResult(objective: Option<int>, status: SolveStatus, best: seq<TaskData>)

  /** The result assembled from the engine's status name, objective value and valuation. */
  function SolveResultOf(d: SolverData, tvs: seq<DecodeVars>, lits: seq<Lit>, statusName: string, objectiveValue: int, val: Valuation): (r: SolveResult)
    requires |tvs| == |d.tasks| && |lits| == |d.modes|
    ensures r.status == GetSolveStatus(statusName)
    ensures HasSolution(statusName) ==> r.best == Decoded(d, tvs, lits, val) && r.objective == Some(objectiveValue)
    ensures !HasSolution(statusName) ==> r.best == [] && r.objective.None?
  {
    if HasSolution(statusName) then SolveResult(Some(objectiveValue), GetSolveStatus(statusName), Decoded(d, tvs, lits, val))
    else SolveResult(None, GetSolveStatus(statusName), [])
  }

  /**
   * On a model valuation with at least one task, the result carries a
   * solution exactly when the status is optimal or feasible, and then one
   * entry per task.
   */
  lemma {:induction false} SolutionIffFeasible(d: SolverData, v: OrConstraints.Vars, tvs: seq<DecodeVars>, statusName: string, objectiveValue: int, val: Valuation)
    requires OrConstraints.SelectReady(d, v) && OrConstraints.TasksBool(v, val) && OrConstraints.ModesBool(v, val)
    requires Satisfies(OrConstraints.SelectRecords(d, v, |d.tasks|), val)
    requires SamePresence(tvs, v) && |v.modes| == |d.modes| && |d.tasks| > 0
    ensures var r := SolveResultOf(d, tvs, v.modes, statusName, objectiveValue, val);
            && (r.best != [] <==> r.status in {Optimal, Feasible})
            && (r.best != [] ==> |r.best| == |d.tasks|)
  {
    ModelValuationDecodes(d, v, tvs, val);
  }
}
