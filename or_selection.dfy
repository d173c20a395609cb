/**
 * The mode-dependency and task-selection builders of the OR-Tools back end
 * (`_mode_dependencies` and `_task_selection_constraints` in
 * `pyjobshop/solvers/ortools/Constraints.py`), over the variables record
 * `OrConstraints.Vars`.
 */
module OrSelection {
  import opened Wrappers
  import opened CpLog
  import opened OrConstraints

  // ------------------------------------------------------ mode dependencies

  /** Every mode a dependency names has a mode literal. */
  predicate DependenciesKnown(v: Vars, deps: seq<ModeDependency>)
  {
    forall i :: 0 <= i < |deps| ==>
      deps[i].mode1 < |v.modes| && forall k :: 0 <= k < |deps[i].modes2| ==> deps[i].modes2[k] < |v.modes|
  }

  /** `[variables.mode_vars[idx] for idx in modes]`. */
  function ModeVarsOf(v: Vars, modes: seq<nat>): (r: seq<Lit>)
    requires forall k :: 0 <= k < |modes| ==> modes[k] < |v.modes|
    ensures |r| == |modes| && forall k :: 0 <= k < |modes| ==> r[k] == v.modes[modes[k]]
  {
    seq(|modes|, k requires 0 <= k < |modes| => v.modes[modes[k]])
  }

  /** `mode_vars[idx1] <= sum(mode_vars[idx] for idx in idcs2)`. */
  function DependencyRow(v: Vars, dep: ModeDependency): Record
    requires dep.mode1 < |v.modes| && forall k :: 0 <= k < |dep.modes2| ==> dep.modes2[k] < |v.modes|
  {
    Linear([], Bool(v.modes[dep.mode1]), Le, Sum(Bools(ModeVarsOf(v, dep.modes2))))
  }

  function DependencyRecords(v: Vars, deps: seq<ModeDependency>, n: nat): seq<Record>
    requires DependenciesKnown(v, deps) && n <= |deps|
  {
    if n == 0 then [] else DependencyRecords(v, deps, n - 1) + [DependencyRow(v, deps[n - 1])]
  }

  /** `_mode_dependencies`. */
  method ModeDependencies(m: Model, v: Vars, deps: seq<ModeDependency>)
    requires DependenciesKnown(v, deps)
    modifies m
    ensures m.log == old(m.log) + DependencyRecords(v, deps, |deps|)
    ensures m.next == old(m.next) && m.hints == old(m.hints) && m.objective == old(m.objective)
  {
    ghost var log0 := m.log;
    var i := 0;
    while i < |deps|
      invariant i <= |deps|
      invariant m.log == log0 + DependencyRecords(v, deps, i)
      invariant m.next == old(m.next) && m.hints == old(m.hints) && m.objective == old(m.objective)
    {
      m.Add(DependencyRow(v, deps[i]));
      AppendAssoc(log0, DependencyRecords(v, deps, i), [DependencyRow(v, deps[i])]);
      i := i + 1;
    }
  }

  lemma {:induction false} DependencyRecordsContain(v: Vars, deps: seq<ModeDependency>, n: nat, i: nat)
    requires DependenciesKnown(v, deps) && i < n <= |deps|
    ensures DependencyRow(v, deps[i]) in DependencyRecords(v, deps, n)
  {
    if i < n - 1 {
      DependencyRecordsContain(v, deps, n - 1, i);
    }
  }

  /** Selecting mode `mode1` of a dependency selects at least one of its `modes2`. */
  lemma {:induction false} DependencyMeaning(v: Vars, val: Valuation, deps: seq<ModeDependency>, i: nat)
    requires DependenciesKnown(v, deps) && ModesBool(v, val) && i < |deps|
    requires Satisfies(DependencyRecords(v, deps, |deps|), val)
    requires LitTrue(v.modes[deps[i].mode1], val)
    ensures exists k :: 0 <= k < |deps[i].modes2| && LitTrue(v.modes[deps[i].modes2[k]], val)
  {
    var dep := deps[i];
    var lits := ModeVarsOf(v, dep.modes2);
    DependencyRecordsContain(v, deps, |deps|, i);
    SatisfiesMember(DependencyRecords(v, deps, |deps|), DependencyRow(v, dep), val);
    assert AllBool(lits, val) by {
      forall k | 0 <= k < |lits|
        ensures IsBool(val, lits[k])
      {
        assert lits[k] == v.modes[dep.modes2[k]];
      }
    }
    SumOfLiterals(lits, val);
    BoolValue(v.modes[dep.mode1], val);
    CountTrueZero(lits, val);
    var k :| 0 <= k < |lits| && LitTrue(lits[k], val);
    assert lits[k] == v.modes[dep.modes2[k]];
  }

  // --------------------------------------------------------- task selection

  datatype SelectionKind = AllOrNone | AtLeastOne | ExactlyOne

  /** The group's tasks, and its condition task if any, have variables. */
  predicate SelectionIn(v: Vars, g: Selection)
  {
    TasksIn(v, g.tasks) && (g.condition.Some? ==> g.condition.value < |v.tasks|)
  }

  predicate SelectionsIn(v: Vars, gs: seq<Selection>)
  {
    forall i :: 0 <= i < |gs| ==> SelectionIn(v, gs[i])
  }

  /**
   * `presence_var_or_true(condition_idx)`: the condition task's presence,
   * or the constant created as variable `next`.
   */
  function ConditionLit(v: Vars, g: Selection, next: nat): Lit
    requires SelectionIn(v, g)
  {
    match g.condition
    case Some(t) => v.tasks[t].present
    case None => Pos(next)
  }

  /** The variable `model.new_constant(1)` declares when there is no condition. */
  function ConditionVars(g: Selection, next: nat): seq<Record>
  {
    if g.condition.None? then [ConstVar(next, 1)] else []
  }

  /** The number of variables a group creates: one constant when it has no condition. */
  function Fresh(g: Selection): nat
  {
    if g.condition.None? then 1 else 0
  }

  /** The number of variables the first `n` groups create. */
  function FreshCount(gs: seq<Selection>, n: nat): nat
    requires n <= |gs|
  {
    if n == 0 then 0 else FreshCount(gs, n - 1) + Fresh(gs[n - 1])
  }

  /** The next free variable once all groups `gs` have been built from `next0`. */
  function After(gs: seq<Selection>, next0: nat): nat
  {
    next0 + FreshCount(gs, |gs|)
  }

  /** `var1.present == var2.present` for the first `k` consecutive pairs, enforced by `cond`. */
  function PairwiseRows(v: Vars, ts: seq<nat>, cond: Lit, k: nat): seq<Record>
    requires TasksIn(v, ts) && k < |ts|
  {
    if k == 0 then []
    else
      PairwiseRows(v, ts, cond, k - 1)
      + [Linear([cond], Bool(v.tasks[ts[k - 1]].present), Eq, Bool(v.tasks[ts[k]].present))]
  }

  /** `[variables.task_vars[idx].present for idx in ts]`. */
  function PresenceLits(v: Vars, ts: seq<nat>): (r: seq<Lit>)
    requires TasksIn(v, ts)
    ensures |r| == |ts| && forall k :: 0 <= k < |ts| ==> r[k] == v.tasks[ts[k]].present
  {
    seq(|ts|, k requires 0 <= k < |ts| => v.tasks[ts[k]].present)
  }

  /** `var1.present == var2.present` for consecutive tasks of the group, enforced by `cond`. */
  function AllOrNoneRows(v: Vars, ts: seq<nat>, cond: Lit): seq<Record>
    requires TasksIn(v, ts)
  {
    if ts == [] then [] else PairwiseRows(v, ts, cond, |ts| - 1)
  }

  /** `presence_var_or_true(condition) <= sum(presences)`. */
  function AtLeastOneRow(v: Vars, ts: seq<nat>, cond: Lit): Record
    requires TasksIn(v, ts)
  {
    Linear([], Bool(cond), Le, Sum(Bools(PresenceLits(v, ts))))
  }

  /** `sum(presences) == 1`, enforced by `cond`. */
  function ExactlyOneRow(v: Vars, ts: seq<nat>, cond: Lit): Record
    requires TasksIn(v, ts)
  {
    Linear([cond], Sum(Bools(PresenceLits(v, ts))), Eq, Num(1))
  }

  /** The constraint records of one group of the given kind. */
  function KindRows(kind: SelectionKind, v: Vars, ts: seq<nat>, cond: Lit): seq<Record>
    requires TasksIn(v, ts)
  {
    match kind
    case AllOrNone => AllOrNoneRows(v, ts, cond)
    case AtLeastOne => [AtLeastOneRow(v, ts, cond)]
    case ExactlyOne => [ExactlyOneRow(v, ts, cond)]
  }

  /** The records of one group, whose condition constant (if any) is variable `next`. */
  function SelectionBlock(kind: SelectionKind, v: Vars, g: Selection, next: nat): seq<Record>
    requires SelectionIn(v, g)
  {
    ConditionVars(g, next) + KindRows(kind, v, g.tasks, ConditionLit(v, g, next))
  }

  function SelectionRecords(kind: SelectionKind, v: Vars, gs: seq<Selection>, n: nat, next0: nat): seq<Record>
    requires SelectionsIn(v, gs) && n <= |gs|
  {
    if n == 0 then []
    else SelectionRecords(kind, v, gs, n - 1, next0) + SelectionBlock(kind, v, gs[n - 1], next0 + FreshCount(gs, n - 1))
  }

  lemma {:induction false} SelectionRecordsStep(kind: SelectionKind, v: Vars, gs: seq<Selection>, n: nat, next0: nat)
    requires SelectionsIn(v, gs) && n < |gs|
    ensures SelectionRecords(kind, v, gs, n + 1, next0)
            == SelectionRecords(kind, v, gs, n, next0) + SelectionBlock(kind, v, gs[n], next0 + FreshCount(gs, n))
    ensures FreshCount(gs, n + 1) == FreshCount(gs, n) + Fresh(gs[n])
  {
  }

  /** One of the three loops of `_task_selection_constraints`. */
  method AddSelections(m: Model, kind: SelectionKind, v: Vars, gs: seq<Selection>)
    requires SelectionsIn(v, gs)
    modifies m
    ensures m.log == old(m.log) + SelectionRecords(kind, v, gs, |gs|, old(m.next))
    ensures m.next == After(gs, old(m.next))
    ensures m.hints == old(m.hints) && m.objective == old(m.objective)
  {
    ghost var log0 := m.log;
    ghost var next0 := m.next;
    var i := 0;
    while i < |gs|
      invariant i <= |gs|
      invariant m.log == log0 + SelectionRecords(kind, v, gs, i, next0)
      invariant m.next == next0 + FreshCount(gs, i)
      invariant m.hints == old(m.hints) && m.objective == old(m.objective)
    {
      AddSelectionStep(m, kind, v, gs, i, log0, next0);
      i := i + 1;
    }
  }

  /** One iteration of `AddSelections`: group `i` extends the records of the groups before it. */
  method AddSelectionStep(m: Model, kind: SelectionKind, v: Vars, gs: seq<Selection>, i: nat,
                          ghost log0: seq<Record>, ghost next0: nat)
    requires SelectionsIn(v, gs) && i < |gs|
    requires m.log == log0 + SelectionRecords(kind, v, gs, i, next0) && m.next == next0 + FreshCount(gs, i)
    modifies m
    ensures m.log == log0 + SelectionRecords(kind, v, gs, i + 1, next0)
    ensures m.next == next0 + FreshCount(gs, i + 1)
    ensures m.hints == old(m.hints) && m.objective == old(m.objective)
  {
    ghost var before := SelectionRecords(kind, v, gs, i, next0);
    ghost var block := SelectionBlock(kind, v, gs[i], next0 + FreshCount(gs, i));
    AddSelection(m, kind, v, gs[i]);
    AppendAssoc(log0, before, block);
    SelectionRecordsStep(kind, v, gs, i, next0);
  }

  method AddSelection(m: Model, kind: SelectionKind, v: Vars, g: Selection)
    requires SelectionIn(v, g)
    modifies m
    ensures m.log == old(m.log) + SelectionBlock(kind, v, g, old(m.next))
    ensures m.next == old(m.next) + Fresh(g)
    ensures m.hints == old(m.hints) && m.objective == old(m.objective)
  {
    ghost var log0 := m.log;
    ghost var next0 := m.next;
    var cond: Lit;
    if g.condition.Some? {
      cond := v.tasks[g.condition.value].present;
    } else {
      var c := m.NewConstant(1);
      cond := Pos(c);
    }
    assert cond == ConditionLit(v, g, next0);
    assert m.log == log0 + ConditionVars(g, next0);
    match kind
    case AllOrNone =>
      AddAllOrNone(m, v, g.tasks, cond);
    case AtLeastOne =>
      m.Add(AtLeastOneRow(v, g.tasks, cond));
    case ExactlyOne =>
      m.Add(ExactlyOneRow(v, g.tasks, cond));
  }

  /** The pairwise loop of the all-or-none groups. */
  method AddAllOrNone(m: Model, v: Vars, ts: seq<nat>, cond: Lit)
    requires TasksIn(v, ts)
    modifies m
    ensures m.log == old(m.log) + AllOrNoneRows(v, ts, cond)
    ensures m.next == old(m.next) && m.hints == old(m.hints) && m.objective == old(m.objective)
  {
    if ts != [] {
      ghost var log0 := m.log;
      var k := 0;
      while k < |ts| - 1
        invariant k <= |ts| - 1
        invariant m.log == log0 + PairwiseRows(v, ts, cond, k)
        invariant m.next == old(m.next) && m.hints == old(m.hints) && m.objective == old(m.objective)
      {
        var row := Linear([cond], Bool(v.tasks[ts[k]].present), Eq, Bool(v.tasks[ts[k + 1]].present));
        m.Add(row);
        AppendAssoc(log0, PairwiseRows(v, ts, cond, k), [row]);
        k := k + 1;
      }
    }
  }

  /** `_task_selection_constraints`: the all-or-none, at-least-one and exactly-one groups, in that order. */
  method TaskSelectionConstraints(m: Model, v: Vars, c: SolverConstraints)
    requires SelectionsIn(v, c.selectAllOrNone) && SelectionsIn(v, c.selectAtLeastOne) && SelectionsIn(v, c.selectExactlyOne)
    modifies m
    ensures m.log == old(m.log) + TaskSelectionRecords(v, c, old(m.next))
    ensures m.next == SelectionAfter(c, old(m.next))
    ensures m.hints == old(m.hints) && m.objective == old(m.objective)
  {
    ghost var log0 := m.log;
    ghost var next0 := m.next;
    AddSelections(m, AllOrNone, v, c.selectAllOrNone);
    ghost var a := SelectionRecords(AllOrNone, v, c.selectAllOrNone, |c.selectAllOrNone|, next0);
    ghost var next1 := After(c.selectAllOrNone, next0);
    AddSelections(m, AtLeastOne, v, c.selectAtLeastOne);
    ghost var b := SelectionRecords(AtLeastOne, v, c.selectAtLeastOne, |c.selectAtLeastOne|, next1);
    ghost var next2 := After(c.selectAtLeastOne, next1);
    AddSelections(m, ExactlyOne, v, c.selectExactlyOne);
    ghost var e := SelectionRecords(ExactlyOne, v, c.selectExactlyOne, |c.selectExactlyOne|, next2);
    AppendAssoc(log0, a, b);
    AppendAssoc(log0, a + b, e);
  }

  /** The next free variable once all three kinds of groups have been built from `next0`. */
  function SelectionAfter(c: SolverConstraints, next0: nat): nat
  {
    After(c.selectExactlyOne, After(c.selectAtLeastOne, After(c.selectAllOrNone, next0)))
  }

  /** The records of `_task_selection_constraints`, whose constants are numbered from `next0`. */
  function TaskSelectionRecords(v: Vars, c: SolverConstraints, next0: nat): seq<Record>
    requires SelectionsIn(v, c.selectAllOrNone) && SelectionsIn(v, c.selectAtLeastOne) && SelectionsIn(v, c.selectExactlyOne)
  {
    SelectionRecords(AllOrNone, v, c.selectAllOrNone, |c.selectAllOrNone|, next0)
    + SelectionRecords(AtLeastOne, v, c.selectAtLeastOne, |c.selectAtLeastOne|, After(c.selectAllOrNone, next0))
    + SelectionRecords(ExactlyOne, v, c.selectExactlyOne, |c.selectExactlyOne|,
                       After(c.selectAtLeastOne, After(c.selectAllOrNone, next0)))
  }

  // ------------------------------------------------------------------ meaning

  /** The group's condition task, if any, is present. */
  predicate ConditionHolds(v: Vars, val: Valuation, g: Selection)
    requires SelectionIn(v, g)
  {
    g.condition.Some? ==> LitTrue(v.tasks[g.condition.value].present, val)
  }

  /** Dropping the last group's block keeps the records satisfied. */
  lemma {:induction false} SelectionDropLast(kind: SelectionKind, v: Vars, gs: seq<Selection>, j: nat, next0: nat,
                                             val: Valuation)
    requires SelectionsIn(v, gs) && j < |gs|
    requires Satisfies(SelectionRecords(kind, v, gs, j + 1, next0), val)
    ensures Satisfies(SelectionRecords(kind, v, gs, j, next0), val)
    ensures Satisfies(SelectionBlock(kind, v, gs[j], next0 + FreshCount(gs, j)), val)
  {
    SelectionRecordsStep(kind, v, gs, j, next0);
    SatisfiesConcat(SelectionRecords(kind, v, gs, j, next0), SelectionBlock(kind, v, gs[j], next0 + FreshCount(gs, j)), val);
  }

  /** The records of fewer groups are satisfied too. */
  lemma {:induction false} SelectionPrefixSatisfied(kind: SelectionKind, v: Vars, gs: seq<Selection>, n: nat, k: nat,
                                                    next0: nat, val: Valuation)
    requires SelectionsIn(v, gs) && k <= n <= |gs|
    requires Satisfies(SelectionRecords(kind, v, gs, n, next0), val)
    ensures Satisfies(SelectionRecords(kind, v, gs, k, next0), val)
    decreases n - k
  {
    if k < n {
      SelectionPrefixSatisfied(kind, v, gs, n, k + 1, next0, val);
      SelectionDropLast(kind, v, gs, k, next0, val);
    }
  }

  /** Every record of group `i`'s block holds. */
  lemma {:induction false} SelectionBlockSatisfied(kind: SelectionKind, v: Vars, gs: seq<Selection>, n: nat, next0: nat,
                                                   i: nat, val: Valuation)
    requires SelectionsIn(v, gs) && i < n <= |gs|
    requires Satisfies(SelectionRecords(kind, v, gs, n, next0), val)
    ensures Satisfies(SelectionBlock(kind, v, gs[i], next0 + FreshCount(gs, i)), val)
  {
    SelectionPrefixSatisfied(kind, v, gs, n, i + 1, next0, val);
    SelectionDropLast(kind, v, gs, i, next0, val);
  }

  /**
   * A satisfied block satisfies its kind's rows, and a holding condition
   * makes the condition literal true (the constant is 1).
   */
  lemma {:induction false} KindRowsSatisfied(kind: SelectionKind, v: Vars, val: Valuation, g: Selection, next: nat)
    requires SelectionIn(v, g) && Satisfies(SelectionBlock(kind, v, g, next), val)
    ensures Satisfies(KindRows(kind, v, g.tasks, ConditionLit(v, g, next)), val)
    ensures ConditionHolds(v, val, g) ==> LitTrue(ConditionLit(v, g, next), val)
  {
    SatisfiesConcat(ConditionVars(g, next), KindRows(kind, v, g.tasks, ConditionLit(v, g, next)), val);
    if g.condition.None? {
      assert Holds(ConditionVars(g, next)[0], val);
    }
  }

  /** The tasks of a pairwise chain are all present or all absent when `cond` holds. */
  lemma {:induction false} PairwiseChain(v: Vars, val: Valuation, ts: seq<nat>, cond: Lit, k: nat, j: nat)
    requires TasksIn(v, ts) && TasksBool(v, val) && k < |ts| && j <= k && LitTrue(cond, val)
    requires Satisfies(PairwiseRows(v, ts, cond, k), val)
    ensures LitTrue(v.tasks[ts[j]].present, val) <==> LitTrue(v.tasks[ts[0]].present, val)
  {
    if k > 0 {
      var row := Linear([cond], Bool(v.tasks[ts[k - 1]].present), Eq, Bool(v.tasks[ts[k]].present));
      assert PairwiseRows(v, ts, cond, k) == PairwiseRows(v, ts, cond, k - 1) + [row];
      SatisfiesConcat(PairwiseRows(v, ts, cond, k - 1), [row], val);
      if j < k {
        PairwiseChain(v, val, ts, cond, k - 1, j);
      } else {
        PairwiseChain(v, val, ts, cond, k - 1, k - 1);
        assert Holds([row][0], val);
        assert AllTrue([cond], val);
        BoolValue(v.tasks[ts[k - 1]].present, val);
        BoolValue(v.tasks[ts[k]].present, val);
      }
    }
  }

  predicate Present(v: Vars, val: Valuation, t: nat)
    requires t < |v.tasks|
  {
    LitTrue(v.tasks[t].present, val)
  }

  /** All-or-none: under its condition, any two tasks of a group are both present or both absent. */
  lemma {:induction false} AllOrNoneMeaning(v: Vars, val: Valuation, gs: seq<Selection>, next0: nat, i: nat, a: nat, b: nat)
    requires SelectionsIn(v, gs) && TasksBool(v, val) && i < |gs|
    requires Satisfies(SelectionRecords(AllOrNone, v, gs, |gs|, next0), val)
    requires ConditionHolds(v, val, gs[i]) && a < |gs[i].tasks| && b < |gs[i].tasks|
    ensures Present(v, val, gs[i].tasks[a]) <==> Present(v, val, gs[i].tasks[b])
  {
    SelectionBlockSatisfied(AllOrNone, v, gs, |gs|, next0, i, val);
    GroupAllOrNone(v, val, gs[i], next0 + FreshCount(gs, i), a, b);
  }

  /** One group's all-or-none block, satisfied under its condition. */
  lemma {:induction false} GroupAllOrNone(v: Vars, val: Valuation, g: Selection, next: nat, a: nat, b: nat)
    requires SelectionIn(v, g) && TasksBool(v, val) && Satisfies(SelectionBlock(AllOrNone, v, g, next), val)
    requires ConditionHolds(v, val, g) && a < |g.tasks| && b < |g.tasks|
    ensures Present(v, val, g.tasks[a]) <==> Present(v, val, g.tasks[b])
  {
    KindRowsSatisfied(AllOrNone, v, val, g, next);
    var cond := ConditionLit(v, g, next);
    PairwiseChain(v, val, g.tasks, cond, |g.tasks| - 1, a);
    PairwiseChain(v, val, g.tasks, cond, |g.tasks| - 1, b);
  }

  /** `cond <= sum(presences)` with `cond` true: some task is present. */
  lemma {:induction false} AtLeastOneRowMeaning(v: Vars, val: Valuation, ts: seq<nat>, cond: Lit)
    requires TasksIn(v, ts) && TasksBool(v, val) && LitTrue(cond, val)
    requires Holds(AtLeastOneRow(v, ts, cond), val)
    ensures exists k :: 0 <= k < |ts| && Present(v, val, ts[k])
  {
    var ps := PresenceLits(v, ts);
    PresencesBool(v, val, ts);
    SumOfLiterals(ps, val);
    CountTrueZero(ps, val);
    assert Eval(Bool(cond), val) == 1;
    var k :| 0 <= k < |ps| && LitTrue(ps[k], val);
    assert Present(v, val, ts[k]);
  }

  /** `sum(presences) == 1` enforced by a true `cond`: exactly one task is present. */
  lemma {:induction false} ExactlyOneRowMeaning(v: Vars, val: Valuation, ts: seq<nat>, cond: Lit)
    requires TasksIn(v, ts) && TasksBool(v, val) && LitTrue(cond, val)
    requires Holds(ExactlyOneRow(v, ts, cond), val)
    ensures exists k :: 0 <= k < |ts| && Present(v, val, ts[k]) &&
              forall j :: 0 <= j < |ts| && j != k ==> !Present(v, val, ts[j])
  {
    var ps := PresenceLits(v, ts);
    PresencesBool(v, val, ts);
    SumOfLiterals(ps, val);
    assert AllTrue([cond], val);
    CountTrueOne(ps, val);
    var k :| 0 <= k < |ps| && LitTrue(ps[k], val) && forall j :: 0 <= j < |ps| && j != k ==> !LitTrue(ps[j], val);
    assert Present(v, val, ts[k]);
    forall j | 0 <= j < |ts| && j != k
      ensures !Present(v, val, ts[j])
    {
      assert !LitTrue(ps[j], val);
    }
  }

  /** At-least-one: under its condition, some task of the group is present. */
  lemma {:induction false} AtLeastOneMeaning(v: Vars, val: Valuation, gs: seq<Selection>, next0: nat, i: nat)
    requires SelectionsIn(v, gs) && TasksBool(v, val) && i < |gs|
    requires Satisfies(SelectionRecords(AtLeastOne, v, gs, |gs|, next0), val)
    requires ConditionHolds(v, val, gs[i])
    ensures exists k :: 0 <= k < |gs[i].tasks| && Present(v, val, gs[i].tasks[k])
  {
    var g := gs[i];
    var next := next0 + FreshCount(gs, i);
    var cond := ConditionLit(v, g, next);
    SelectionBlockSatisfied(AtLeastOne, v, gs, |gs|, next0, i, val);
    KindRowsSatisfied(AtLeastOne, v, val, g, next);
    assert KindRows(AtLeastOne, v, g.tasks, cond)[0] == AtLeastOneRow(v, g.tasks, cond);
    AtLeastOneRowMeaning(v, val, g.tasks, cond);
  }

  /** Exactly-one: under its condition, exactly one task of the group is present. */
  lemma {:induction false} ExactlyOneMeaning(v: Vars, val: Valuation, gs: seq<Selection>, next0: nat, i: nat)
    requires SelectionsIn(v, gs) && TasksBool(v, val) && i < |gs|
    requires Satisfies(SelectionRecords(ExactlyOne, v, gs, |gs|, next0), val)
    requires ConditionHolds(v, val, gs[i])
    ensures exists k :: 0 <= k < |gs[i].tasks| && Present(v, val, gs[i].tasks[k]) &&
              forall j :: 0 <= j < |gs[i].tasks| && j != k ==> !Present(v, val, gs[i].tasks[j])
  {
    var g := gs[i];
    var next := next0 + FreshCount(gs, i);
    var cond := ConditionLit(v, g, next);
    SelectionBlockSatisfied(ExactlyOne, v, gs, |gs|, next0, i, val);
    KindRowsSatisfied(ExactlyOne, v, val, g, next);
    assert KindRows(ExactlyOne, v, g.tasks, cond)[0] == ExactlyOneRow(v, g.tasks, cond);
    ExactlyOneRowMeaning(v, val, g.tasks, cond);
  }

  lemma {:induction false} PresencesBool(v: Vars, val: Valuation, ts: seq<nat>)
    requires TasksIn(v, ts) && TasksBool(v, val)
    ensures AllBool(PresenceLits(v, ts), val)
  {
    var ps := PresenceLits(v, ts);
    forall k | 0 <= k < |ps|
      ensures IsBool(val, ps[k])
    {
      assert ps[k] == v.tasks[ts[k]].present;
    }
  }
}
