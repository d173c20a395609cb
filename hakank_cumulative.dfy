/**
 * `my_cumulative` of `cpmodel/hakank.py`: a time-indexed decomposition of the
 * cumulative constraint. For every time point between the earliest lower
 * bound and the latest upper bound of the start variables it declares, per
 * task, an indicator that the task runs at that time and a variable holding
 * its demand then, and bounds their sum by the capacity.
 */
module HakankCumulative {
  import opened Wrappers
  import opened CpLog
  import CpModelPlus
  import opened CpModelPlusVars
  import opened Hakank

  // ---------------------------------------------------------------------------
  // Reified comparisons and conjunctions
  // ---------------------------------------------------------------------------

  /** The comparison that holds exactly when `lhs cmp rhs` fails, read with the sides swapped. */
  function Dual(cmp: Cmp): Cmp
    requires cmp == Le || cmp == Lt
  {
    if cmp == Le then Lt else Le
  }

  /** A fresh Boolean `b`, `lhs cmp rhs` enforced on `b` and its negation on `~b`. */
  function ReifyCmp(b: Var, lhs: Expr, cmp: Cmp, rhs: Expr): seq<Record>
    requires cmp == Le || cmp == Lt
  {
    [BoolVar(b), Linear([Pos(b)], lhs, cmp, rhs), Linear([Neg(b)], rhs, Dual(cmp), lhs)]
  }

  /** A fresh Boolean `b`, `p && q` enforced on `b` and `~p || ~q` on `~b`. */
  function ReifyAnd(b: Var, p: Var, q: Var): seq<Record>
  {
    [BoolVar(b), BoolAnd([Pos(b)], [Pos(p), Pos(q)]), BoolOr([Neg(b)], [Neg(p), Neg(q)])]
  }

  /** The Boolean of a reified comparison is 1 exactly when the comparison holds. */
  lemma {:induction false} ReifyCmpMeaning(b: Var, lhs: Expr, cmp: Cmp, rhs: Expr, val: Valuation)
    requires cmp == Le || cmp == Lt
    ensures Satisfies(ReifyCmp(b, lhs, cmp, rhs), val) <==>
            val(b) == if Compare(cmp, Eval(lhs, val), Eval(rhs, val)) then 1 else 0
  {
    var r := ReifyCmp(b, lhs, cmp, rhs);
    assert AllTrue([Pos(b)], val) <==> val(b) == 1 by {
      assert [Pos(b)][0] == Pos(b);
    }
    assert AllTrue([Neg(b)], val) <==> val(b) == 0 by {
      assert [Neg(b)][0] == Neg(b);
    }
    assert Satisfies(r, val) <==> Holds(r[0], val) && Holds(r[1], val) && Holds(r[2], val);
  }

  /** On two 0/1 variables, the Boolean of a reified conjunction is their conjunction. */
  lemma {:induction false} ReifyAndMeaning(b: Var, p: Var, q: Var, val: Valuation)
    requires 0 <= val(p) <= 1 && 0 <= val(q) <= 1
    ensures Satisfies(ReifyAnd(b, p, q), val) <==> val(b) == if val(p) == 1 && val(q) == 1 then 1 else 0
  {
    var r := ReifyAnd(b, p, q);
    assert AllTrue([Pos(b)], val) <==> val(b) == 1 by {
      assert [Pos(b)][0] == Pos(b);
    }
    assert AllTrue([Neg(b)], val) <==> val(b) == 0 by {
      assert [Neg(b)][0] == Neg(b);
    }
    assert AllTrue([Pos(p), Pos(q)], val) <==> val(p) == 1 && val(q) == 1 by {
      assert [Pos(p), Pos(q)][0] == Pos(p) && [Pos(p), Pos(q)][1] == Pos(q);
    }
    assert AnyTrue([Neg(p), Neg(q)], val) <==> val(p) == 0 || val(q) == 0 by {
      assert [Neg(p), Neg(q)][0] == Neg(p) && [Neg(p), Neg(q)][1] == Neg(q);
    }
    assert Satisfies(r, val) <==> Holds(r[0], val) && Holds(r[1], val) && Holds(r[2], val);
  }

  method AddReifyCmp(m: Model, lhs: Expr, cmp: Cmp, rhs: Expr) returns (b: Var)
    requires cmp == Le || cmp == Lt
    modifies m
    ensures b == old(m.next) && m.next == b + 1
    ensures m.log == old(m.log) + ReifyCmp(b, lhs, cmp, rhs)
    ensures m.hints == old(m.hints) && m.objective == old(m.objective)
  {
    ghost var log0 := m.log;
    b := m.NewBoolVar();
    m.Add(Linear([Pos(b)], lhs, cmp, rhs));
    m.Add(Linear([Neg(b)], rhs, Dual(cmp), lhs));
    assert m.log == log0 + ReifyCmp(b, lhs, cmp, rhs);
  }

  method AddReifyAnd(m: Model, p: Var, q: Var) returns (b: Var)
    modifies m
    ensures b == old(m.next) && m.next == b + 1
    ensures m.log == old(m.log) + ReifyAnd(b, p, q)
    ensures m.hints == old(m.hints) && m.objective == old(m.objective)
  {
    ghost var log0 := m.log;
    b := m.NewBoolVar();
    m.Add(BoolAnd([Pos(b)], [Pos(p), Pos(q)]));
    m.Add(BoolOr([Neg(b)], [Neg(p), Neg(q)]));
    assert m.log == log0 + ReifyAnd(b, p, q);
  }

  // ---------------------------------------------------------------------------
  // The inputs and their errors
  // ---------------------------------------------------------------------------

  /** The resource limit: a constant or a variable. */
  datatype Capacity = Fixed(c: int) | Variable(v: Var)

  function CapacityExpr(cap: Capacity): Expr
  {
    match cap
    case Fixed(c) => Num(c)
    case Variable(v) => Value(v)
  }

  /** `sum(r)`. */
  function SumOf(r: seq<int>): int
  {
    if r == [] then 0 else SumOf(r[..|r| - 1]) + r[|r| - 1]
  }

  /** Start variables, durations and demands, one entry per job. */
  datatype Jobs = Jobs(s: seq<PlusVar>, d: seq<int>, r: seq<int>)

  /** Every entry of `ts` is a job of `jobs` below `n` with positive demand and duration. */
  predicate TasksIn(ts: seq<nat>, n: nat, jobs: Jobs)
  {
    forall k :: 0 <= k < |ts| ==>
      ts[k] < n && ts[k] < |jobs.d| && ts[k] < |jobs.r| && jobs.r[ts[k]] > 0 && jobs.d[ts[k]] > 0
  }

  predicate Increasing(ts: seq<nat>)
  {
    forall j, k :: 0 <= j < k < |ts| ==> ts[j] < ts[k]
  }

  /**
   * `[i for i in range(n) if r[i] > 0 and d[i] > 0]`: the jobs with positive
   * demand and duration, in order, or the error of reading past `r` (for any
   * job) or past `d` (for a job with positive demand).
   */
  function TaskList(n: nat, jobs: Jobs): (res: Result<seq<nat>, HakankError>)
    ensures res.Ok? <==> n <= |jobs.r| && forall i :: 0 <= i < n && jobs.r[i] > 0 ==> i < |jobs.d|
    ensures res.Err? ==> res.error == MissingEntry
    ensures res.Ok? ==> TasksIn(res.value, n, jobs) && Increasing(res.value)
    ensures res.Ok? ==> forall i {:trigger i in res.value} :: 0 <= i < n && jobs.r[i] > 0 && jobs.d[i] > 0 ==> i in res.value
  {
    if n == 0 then Ok([])
    else
      match TaskList(n - 1, jobs)
      case Err(e) => Err(e)
      case Ok(ts) =>
        if n - 1 >= |jobs.r| then Err(MissingEntry)
        else if jobs.r[n - 1] <= 0 then Ok(ts)
        else if n - 1 >= |jobs.d| then Err(MissingEntry)
        else if jobs.d[n - 1] <= 0 then Ok(ts)
        else Ok(ts + [n - 1])
  }

  /** Every task's start variable has a domain with at least two bounds. */
  predicate Bounded(s: seq<PlusVar>, ts: seq<nat>)
  {
    forall k :: 0 <= k < |ts| ==> ts[k] < |s| && |s[ts[k]].domain| >= 2
  }

  /**
   * The error `my_cumulative` raises before it declares anything: `max` of
   * no demands, an index past `r` or `d`, a start domain with fewer than
   * two bounds, or `min` of no tasks.
   */
  function CumulativeError(jobs: Jobs): Option<HakankError>
  {
    if jobs.r == [] then Some(EmptySequence)
    else
      match TaskList(|jobs.s|, jobs)
      case Err(e) => Some(e)
      case Ok(ts) =>
        if exists k :: 0 <= k < |ts| && |jobs.s[ts[k]].domain| < 2 then Some(MissingEntry)
        else if ts == [] then Some(EmptySequence)
        else None
  }

  /** `[s[i].proto.domain[0] for i in tasks]`. */
  function Lows(s: seq<PlusVar>, ts: seq<nat>): (r: seq<int>)
    requires Bounded(s, ts)
    ensures |r| == |ts| && forall k :: 0 <= k < |ts| ==> r[k] == s[ts[k]].domain[0]
  {
    seq(|ts|, k requires 0 <= k < |ts| => s[ts[k]].domain[0])
  }

  /** `[s[i].proto.domain[1] for i in tasks]`. */
  function Highs(s: seq<PlusVar>, ts: seq<nat>): (r: seq<int>)
    requires Bounded(s, ts)
    ensures |r| == |ts| && forall k :: 0 <= k < |ts| ==> r[k] == s[ts[k]].domain[1]
  {
    seq(|ts|, k requires 0 <= k < |ts| => s[ts[k]].domain[1])
  }

  /** What `my_cumulative` computes before its loops. */
  datatype Plan = Plan(ts: seq<nat>, maxR: int, tmin: int, tmax: int)

  /** The number of time points from `tmin` to `tmax`. */
  function Count(tmin: int, tmax: int): nat
  {
    if tmin <= tmax then tmax - tmin + 1 else 0
  }

  /** Every task is a job of `jobs`. */
  predicate Indexed(jobs: Jobs, ts: seq<nat>)
  {
    forall k :: 0 <= k < |ts| ==> ts[k] < |jobs.s| && ts[k] < |jobs.d| && ts[k] < |jobs.r|
  }

  /** The tasks are jobs with demand in `1..maxR` and positive duration. */
  predicate Usable(jobs: Jobs, ts: seq<nat>, maxR: int)
  {
    Indexed(jobs, ts) && forall k :: 0 <= k < |ts| ==> 0 < jobs.r[ts[k]] <= maxR && jobs.d[ts[k]] > 0
  }

  function MakePlan(jobs: Jobs): (p: Plan)
    requires CumulativeError(jobs).None?
    ensures p.ts != [] && Usable(jobs, p.ts, p.maxR) && Bounded(jobs.s, p.ts)
    ensures p.ts == TaskList(|jobs.s|, jobs).value
  {
    var ts := TaskList(|jobs.s|, jobs).value;
    var maxR := Max(jobs.r);
    var p := Plan(ts, maxR, Min(Lows(jobs.s, ts)), Max(Highs(jobs.s, ts)));
    assert Usable(jobs, ts, maxR) by {
      assert TasksIn(ts, |jobs.s|, jobs);
      assert Indexed(jobs, ts);
      forall k | 0 <= k < |ts|
        ensures 0 < jobs.r[ts[k]] <= maxR && jobs.d[ts[k]] > 0
      {
        assert TasksIn(ts, |jobs.s|, jobs);
      }
    }
    p
  }

  /** `tmin` is the least lower bound of the tasks' start domains. */
  lemma {:induction false} PlanLowest(jobs: Jobs)
    requires CumulativeError(jobs).None?
    ensures var p := MakePlan(jobs);
            (forall k :: 0 <= k < |p.ts| ==> p.tmin <= jobs.s[p.ts[k]].domain[0]) &&
            (exists k :: 0 <= k < |p.ts| && jobs.s[p.ts[k]].domain[0] == p.tmin)
  {
    var p := MakePlan(jobs);
    var lows := Lows(jobs.s, p.ts);
    var i :| 0 <= i < |lows| && lows[i] == p.tmin;
    assert jobs.s[p.ts[i]].domain[0] == p.tmin;
  }

  /** `tmax` is the greatest upper bound of the first interval of the tasks' start domains. */
  lemma {:induction false} PlanHighest(jobs: Jobs)
    requires CumulativeError(jobs).None?
    ensures var p := MakePlan(jobs);
            (forall k :: 0 <= k < |p.ts| ==> jobs.s[p.ts[k]].domain[1] <= p.tmax) &&
            (exists k :: 0 <= k < |p.ts| && jobs.s[p.ts[k]].domain[1] == p.tmax)
  {
    var p := MakePlan(jobs);
    var highs := Highs(jobs.s, p.ts);
    var j :| 0 <= j < |highs| && highs[j] == p.tmax;
    assert jobs.s[p.ts[j]].domain[1] == p.tmax;
  }

  // ---------------------------------------------------------------------------
  // The records
  // ---------------------------------------------------------------------------

  /**
   * The four variables of task `i` at time `t`, from `c`: `c` reifies
   * `s[i] <= t`, `c + 1` reifies `t < s[i] + d[i]`, `c + 2` is their
   * conjunction and `c + 3`, in `0..maxR`, equals `c + 2` times `r[i]`.
   */
  function TaskBlock(sv: Var, di: int, ri: int, maxR: int, t: int, c: nat): seq<Record>
  {
    ReifyCmp(c, Value(sv), Le, Num(t)) + ReifyCmp(c + 1, Num(t), Lt, Plus(Value(sv), Num(di))) +
    ReifyAnd(c + 2, c, c + 1) + [IntVar(c + 3, 0, maxR), MulEquality(Value(c + 3), Value(c + 2), Num(ri))]
  }

  /** `log0` followed by the blocks of the first `k` tasks at time `t`, from `c0`. */
  function RowLogAfter(log0: seq<Record>, jobs: Jobs, ts: seq<nat>, maxR: int, t: int, c0: nat, k: nat): seq<Record>
    requires k <= |ts| && Usable(jobs, ts, maxR)
  {
    if k == 0 then log0
    else
      var i := ts[k - 1];
      RowLogAfter(log0, jobs, ts, maxR, t, c0, k - 1) + TaskBlock(jobs.s[i].v, jobs.d[i], jobs.r[i], maxR, t, c0 + 4 * (k - 1))
  }

  /** `sum(bb)`: the demand variables of the first `n` blocks from `c0`. */
  function LoadSum(c0: nat, n: nat): Expr
  {
    if n == 0 then Num(0) else Plus(LoadSum(c0, n - 1), Value(c0 + 4 * (n - 1) + 3))
  }

  /** One iteration of the time loop: the blocks of every task, then `sum(bb) <= b`. */
  function TimeStep(log0: seq<Record>, jobs: Jobs, ts: seq<nat>, maxR: int, cap: Capacity, t: int, c0: nat): seq<Record>
    requires Usable(jobs, ts, maxR)
  {
    RowLogAfter(log0, jobs, ts, maxR, t, c0, |ts|) + [Linear([], LoadSum(c0, |ts|), Le, CapacityExpr(cap))]
  }

  /** `log0` followed by the first `k` time points from `tmin`, variables from `base`. */
  function TimesAfter(log0: seq<Record>, jobs: Jobs, ts: seq<nat>, maxR: int, cap: Capacity, tmin: int, base: nat, k: nat): seq<Record>
    requires Usable(jobs, ts, maxR)
  {
    if k == 0 then log0
    else TimeStep(TimesAfter(log0, jobs, ts, maxR, cap, tmin, base, k - 1), jobs, ts, maxR, cap, tmin + (k - 1), base + Offset(k - 1, 4 * |ts|))
  }

  /** `b <= sum(r)`, added only when the limit is a variable. */
  function LimitLog(jobs: Jobs, cap: Capacity): seq<Record>
  {
    if cap.Variable? then [Linear([], Value(cap.v), Le, Num(SumOf(jobs.r)))] else []
  }

  /** The log after a successful `my_cumulative`, its variables numbered from `base`. */
  function CumulativeLog(log0: seq<Record>, jobs: Jobs, cap: Capacity, base: nat): seq<Record>
    requires CumulativeError(jobs).None?
  {
    var p := MakePlan(jobs);
    TimesAfter(log0, jobs, p.ts, p.maxR, cap, p.tmin, base, Count(p.tmin, p.tmax)) + LimitLog(jobs, cap)
  }

  // ---------------------------------------------------------------------------
  // The builders
  // ---------------------------------------------------------------------------

  method AddTaskBlock(m: Model, sv: Var, di: int, ri: int, maxR: int, t: int) returns (c: Var)
    modifies m
    ensures c == old(m.next) && m.next == c + 4
    ensures m.log == old(m.log) + TaskBlock(sv, di, ri, maxR, t, c)
    ensures m.hints == old(m.hints) && m.objective == old(m.objective)
  {
    ghost var log0 := m.log;
    var b1 := AddReifyCmp(m, Value(sv), Le, Num(t));
    var b2 := AddReifyCmp(m, Num(t), Lt, Plus(Value(sv), Num(di)));
    var b3 := AddReifyAnd(m, b1, b2);
    var b4 := m.NewIntVar(0, maxR);
    m.Add(MulEquality(Value(b4), Value(b3), Num(ri)));
    c := b1;
    assert m.log == log0 + TaskBlock(sv, di, ri, maxR, t, c);
  }

  /** The body of the time loop for time `t`. */
  method AddTimeStep(m: Model, jobs: Jobs, ts: seq<nat>, maxR: int, cap: Capacity, t: int)
    requires Usable(jobs, ts, maxR)
    modifies m
    ensures m.next == old(m.next) + 4 * |ts|
    ensures m.log == TimeStep(old(m.log), jobs, ts, maxR, cap, t, old(m.next))
    ensures m.hints == old(m.hints) && m.objective == old(m.objective)
  {
    var c0 := m.next;
    var k: nat := 0;
    while k < |ts|
      invariant k <= |ts| && m.next == c0 + 4 * k
      invariant m.log == RowLogAfter(old(m.log), jobs, ts, maxR, t, c0, k)
      invariant m.hints == old(m.hints) && m.objective == old(m.objective)
    {
      var i := ts[k];
      var c := AddTaskBlock(m, jobs.s[i].v, jobs.d[i], jobs.r[i], maxR, t);
      k := k + 1;
    }
    m.Add(Linear([], LoadSum(c0, |ts|), Le, CapacityExpr(cap)));
  }

  /** The time loop of `my_cumulative`: time `tmin + k` for each of the `Count(tmin, tmax)` values of `k`. */
  method AddTimes(m: Model, jobs: Jobs, ts: seq<nat>, maxR: int, cap: Capacity, tmin: int, tmax: int)
    requires Usable(jobs, ts, maxR)
    modifies m
    ensures m.next == old(m.next) + Offset(Count(tmin, tmax), 4 * |ts|)
    ensures m.log == TimesAfter(old(m.log), jobs, ts, maxR, cap, tmin, old(m.next), Count(tmin, tmax))
    ensures m.hints == old(m.hints) && m.objective == old(m.objective)
  {
    var base := m.next;
    var n := Count(tmin, tmax);
    var k: nat := 0;
    while k < n
      invariant k <= n && m.next == base + Offset(k, 4 * |ts|)
      invariant m.log == TimesAfter(old(m.log), jobs, ts, maxR, cap, tmin, base, k)
      invariant m.hints == old(m.hints) && m.objective == old(m.objective)
    {
      AddTimeStep(m, jobs, ts, maxR, cap, tmin + k);
      k := k + 1;
    }
  }

  /** The part of `my_cumulative` after its inputs have been read without error. */
  method BuildCumulative(m: Model, jobs: Jobs, cap: Capacity)
    requires CumulativeError(jobs).None?
    modifies m
    ensures var p := MakePlan(jobs);
            m.next == old(m.next) + Offset(Count(p.tmin, p.tmax), 4 * |p.ts|) &&
            m.log == CumulativeLog(old(m.log), jobs, cap, old(m.next))
    ensures m.hints == old(m.hints) && m.objective == old(m.objective)
  {
    var p := MakePlan(jobs);
    AddTimes(m, jobs, p.ts, p.maxR, cap, p.tmin, p.tmax);
    if cap.Variable? {
      m.Add(Linear([], Value(cap.v), Le, Num(SumOf(jobs.r))));
    }
  }

  /**
   * `my_cumulative(model, s, d, r, b)`: on an error the model is unchanged;
   * otherwise four variables per task and time point, numbered from
   * `old(m.next)`, and the log `CumulativeLog`.
   */
  method MyCumulative(m: Model, jobs: Jobs, cap: Capacity) returns (res: Option<HakankError>)
    modifies m
    ensures res == CumulativeError(jobs)
    ensures res.Some? ==> m.log == old(m.log) && m.next == old(m.next)
    ensures res.None? ==>
              var p := MakePlan(jobs);
              m.next == old(m.next) + Offset(Count(p.tmin, p.tmax), 4 * |p.ts|) &&
              m.log == CumulativeLog(old(m.log), jobs, cap, old(m.next))
    ensures m.hints == old(m.hints) && m.objective == old(m.objective)
  {
    if jobs.r == [] {
      return Some(EmptySequence);
    }
    var tasks := TaskList(|jobs.s|, jobs);
    if tasks.Err? {
      return Some(tasks.error);
    }
    var ts := tasks.value;
    if exists k :: 0 <= k < |ts| && |jobs.s[ts[k]].domain| < 2 {
      return Some(MissingEntry);
    }
    if ts == [] {
      return Some(EmptySequence);
    }
    res := None;
    BuildCumulative(m, jobs, cap);
  }

  // ---------------------------------------------------------------------------
  // What the records mean
  // ---------------------------------------------------------------------------

  /** A task that starts at `start` and lasts `di` runs at `t`. */
  predicate Running(start: int, di: int, t: int)
  {
    start <= t < start + di
  }

  /** The four variables of a block from `c` hold what their records name. */
  predicate BlockMet(sv: Var, di: int, ri: int, t: int, c: nat, val: Valuation)
  {
    val(c) == (if val(sv) <= t then 1 else 0) &&
    val(c + 1) == (if t < val(sv) + di then 1 else 0) &&
    val(c + 2) == (if Running(val(sv), di, t) then 1 else 0) &&
    val(c + 3) == (if Running(val(sv), di, t) then ri else 0)
  }

  /** A block's records, part by part. */
  lemma {:induction false} TaskBlockParts(sv: Var, di: int, ri: int, maxR: int, t: int, c: nat, val: Valuation)
    ensures Satisfies(TaskBlock(sv, di, ri, maxR, t, c), val) <==>
            Satisfies(ReifyCmp(c, Value(sv), Le, Num(t)), val) &&
            Satisfies(ReifyCmp(c + 1, Num(t), Lt, Plus(Value(sv), Num(di))), val) &&
            Satisfies(ReifyAnd(c + 2, c, c + 1), val) &&
            0 <= val(c + 3) <= maxR && val(c + 3) == val(c + 2) * ri
  {
    var a := ReifyCmp(c, Value(sv), Le, Num(t));
    var b := ReifyCmp(c + 1, Num(t), Lt, Plus(Value(sv), Num(di)));
    var e := ReifyAnd(c + 2, c, c + 1);
    var w := [IntVar(c + 3, 0, maxR), MulEquality(Value(c + 3), Value(c + 2), Num(ri))];
    assert TaskBlock(sv, di, ri, maxR, t, c) == a + b + e + w;
    SatisfiesConcat(a + b + e, w, val);
    SatisfiesConcat(a + b, e, val);
    SatisfiesConcat(a, b, val);
    assert Satisfies(w, val) <==> Holds(w[0], val) && Holds(w[1], val);
  }

  /** A block's records hold exactly when its variables are right. */
  lemma {:induction false} TaskBlockMeaning(sv: Var, di: int, ri: int, maxR: int, t: int, c: nat, val: Valuation)
    requires 0 <= ri <= maxR
    ensures Satisfies(TaskBlock(sv, di, ri, maxR, t, c), val) <==> BlockMet(sv, di, ri, t, c, val)
  {
    TaskBlockParts(sv, di, ri, maxR, t, c, val);
    ReifyCmpMeaning(c, Value(sv), Le, Num(t), val);
    ReifyCmpMeaning(c + 1, Num(t), Lt, Plus(Value(sv), Num(di)), val);
    if 0 <= val(c) <= 1 && 0 <= val(c + 1) <= 1 {
      ReifyAndMeaning(c + 2, c, c + 1, val);
    }
    if val(c + 2) == 0 {
      assert val(c + 2) * ri == 0;
    } else if val(c + 2) == 1 {
      assert val(c + 2) * ri == ri;
    }
  }

  /** The blocks of the first `k` tasks at time `t`, from `c0`, are met. */
  predicate RowMet(jobs: Jobs, ts: seq<nat>, t: int, c0: nat, k: nat, val: Valuation)
    requires k <= |ts| && Indexed(jobs, ts)
  {
    k == 0 ||
    (RowMet(jobs, ts, t, c0, k - 1, val) &&
     var i := ts[k - 1]; BlockMet(jobs.s[i].v, jobs.d[i], jobs.r[i], t, c0 + 4 * (k - 1), val))
  }

  /** The summed demand of those of the first `k` tasks that run at time `t`. */
  function Demand(jobs: Jobs, ts: seq<nat>, t: int, k: nat, val: Valuation): int
    requires k <= |ts| && Indexed(jobs, ts)
  {
    if k == 0 then 0
    else
      var i := ts[k - 1];
      Demand(jobs, ts, t, k - 1, val) + (if Running(val(jobs.s[i].v), jobs.d[i], t) then jobs.r[i] else 0)
  }

  /**
   * The summed demand at time `t` of the first `n` jobs, counting those
   * with positive demand and duration that run at `t`.
   */
  function JobsLoad(jobs: Jobs, n: nat, t: int, val: Valuation): int
    requires n <= |jobs.s|
  {
    if n == 0 then 0
    else
      var i := n - 1;
      JobsLoad(jobs, i, t, val) +
      (if i < |jobs.r| && i < |jobs.d| && jobs.r[i] > 0 && jobs.d[i] > 0 && Running(val(jobs.s[i].v), jobs.d[i], t) then jobs.r[i] else 0)
  }

  /** The demand of the first `k` tasks depends only on those tasks. */
  lemma {:induction false} DemandPrefix(jobs: Jobs, ts: seq<nat>, us: seq<nat>, t: int, k: nat, val: Valuation)
    requires Indexed(jobs, ts) && Indexed(jobs, us) && k <= |ts| && k <= |us|
    requires forall j :: 0 <= j < k ==> ts[j] == us[j]
    ensures Demand(jobs, ts, t, k, val) == Demand(jobs, us, t, k, val)
  {
    if k > 0 {
      DemandPrefix(jobs, ts, us, t, k - 1, val);
    }
  }

  /** One more job in the task list. */
  lemma {:induction false} TaskListStep(n: nat, jobs: Jobs)
    requires n > 0 && TaskList(n, jobs).Ok?
    ensures TaskList(n - 1, jobs).Ok? && n - 1 < |jobs.r| && (jobs.r[n - 1] > 0 ==> n - 1 < |jobs.d|)
    ensures var ts := TaskList(n, jobs).value;
            var prev := TaskList(n - 1, jobs).value;
            if jobs.r[n - 1] > 0 && jobs.d[n - 1] > 0 then ts == prev + [n - 1] else ts == prev
  {
  }

  /** Adding job `n - 1` to the task list adds its load at `t`. */
  lemma {:induction false} DemandStep(jobs: Jobs, ts: seq<nat>, prev: seq<nat>, n: nat, t: int, val: Valuation)
    requires 0 < n <= |jobs.s| && n - 1 < |jobs.r| && (jobs.r[n - 1] > 0 ==> n - 1 < |jobs.d|)
    requires if jobs.r[n - 1] > 0 && jobs.d[n - 1] > 0 then ts == prev + [n - 1] else ts == prev
    requires Indexed(jobs, prev) && Demand(jobs, prev, t, |prev|, val) == JobsLoad(jobs, n - 1, t, val)
    ensures Indexed(jobs, ts) && Demand(jobs, ts, t, |ts|, val) == JobsLoad(jobs, n, t, val)
  {
    var i := n - 1;
    if jobs.r[i] > 0 && jobs.d[i] > 0 {
      assert forall j :: 0 <= j < |prev| ==> ts[j] == prev[j];
      DemandPrefix(jobs, ts, prev, t, |prev|, val);
      assert ts[|ts| - 1] == i;
    }
  }

  /** Summed over the task list, the demand is the load of every job with positive demand and duration. */
  lemma {:induction false} DemandAll(jobs: Jobs, n: nat, t: int, val: Valuation)
    requires n <= |jobs.s| && TaskList(n, jobs).Ok?
    ensures Indexed(jobs, TaskList(n, jobs).value)
    ensures Demand(jobs, TaskList(n, jobs).value, t, |TaskList(n, jobs).value|, val) == JobsLoad(jobs, n, t, val)
  {
    if n > 0 {
      DemandAll(jobs, n - 1, t, val);
      TaskListStep(n, jobs);
      DemandStep(jobs, TaskList(n, jobs).value, TaskList(n - 1, jobs).value, n, t, val);
    }
  }

  /** One more block, read through `BlockMet`. */
  lemma {:induction false} RowLogStep(prev: seq<Record>, whole: seq<Record>, jobs: Jobs, ts: seq<nat>, maxR: int, t: int, c0: nat, k: nat, val: Valuation)
    requires 0 < k <= |ts| && Usable(jobs, ts, maxR)
    requires var i := ts[k - 1];
             whole == prev + TaskBlock(jobs.s[i].v, jobs.d[i], jobs.r[i], maxR, t, c0 + 4 * (k - 1))
    ensures var i := ts[k - 1];
            Satisfies(whole, val) <==> Satisfies(prev, val) && BlockMet(jobs.s[i].v, jobs.d[i], jobs.r[i], t, c0 + 4 * (k - 1), val)
  {
    var i := ts[k - 1];
    var blk := TaskBlock(jobs.s[i].v, jobs.d[i], jobs.r[i], maxR, t, c0 + 4 * (k - 1));
    SatisfiesConcat(prev, blk, val);
    TaskBlockMeaning(jobs.s[i].v, jobs.d[i], jobs.r[i], maxR, t, c0 + 4 * (k - 1), val);
  }

  lemma {:induction false} RowLogMeaning(log0: seq<Record>, jobs: Jobs, ts: seq<nat>, maxR: int, t: int, c0: nat, k: nat, val: Valuation)
    requires k <= |ts| && Usable(jobs, ts, maxR)
    ensures Satisfies(RowLogAfter(log0, jobs, ts, maxR, t, c0, k), val) <==> Satisfies(log0, val) && RowMet(jobs, ts, t, c0, k, val)
  {
    if k > 0 {
      var prev := RowLogAfter(log0, jobs, ts, maxR, t, c0, k - 1);
      var whole := RowLogAfter(log0, jobs, ts, maxR, t, c0, k);
      RowLogStep(prev, whole, jobs, ts, maxR, t, c0, k, val);
      RowLogMeaning(log0, jobs, ts, maxR, t, c0, k - 1, val);
    }
  }

  /** On met blocks, `sum(bb)` is the demand of the running tasks. */
  lemma {:induction false} LoadSumValue(jobs: Jobs, ts: seq<nat>, t: int, c0: nat, k: nat, val: Valuation)
    requires k <= |ts| && Indexed(jobs, ts) && RowMet(jobs, ts, t, c0, k, val)
    ensures Eval(LoadSum(c0, k), val) == Demand(jobs, ts, t, k, val)
  {
    if k > 0 {
      LoadSumValue(jobs, ts, t, c0, k - 1, val);
    }
  }

  /** One time point's records hold exactly when its blocks are met and the running demand fits. */
  lemma {:induction false} TimeStepMeaning(log0: seq<Record>, jobs: Jobs, ts: seq<nat>, maxR: int, cap: Capacity, t: int, c0: nat, val: Valuation)
    requires Usable(jobs, ts, maxR)
    ensures Satisfies(TimeStep(log0, jobs, ts, maxR, cap, t, c0), val) <==>
            Satisfies(log0, val) && RowMet(jobs, ts, t, c0, |ts|, val) &&
            Demand(jobs, ts, t, |ts|, val) <= Eval(CapacityExpr(cap), val)
  {
    var row := RowLogAfter(log0, jobs, ts, maxR, t, c0, |ts|);
    var lim := Linear([], LoadSum(c0, |ts|), Le, CapacityExpr(cap));
    CpModelPlus.SatisfiesSnoc(row, lim, val);
    RowLogMeaning(log0, jobs, ts, maxR, t, c0, |ts|, val);
    assert Holds(lim, val) <==> Eval(LoadSum(c0, |ts|), val) <= Eval(CapacityExpr(cap), val);
    if RowMet(jobs, ts, t, c0, |ts|, val) {
      LoadSumValue(jobs, ts, t, c0, |ts|, val);
    }
  }

  /** The blocks of time point `tmin + j` are met. */
  predicate StepRows(jobs: Jobs, ts: seq<nat>, tmin: int, base: nat, j: nat, val: Valuation)
    requires Indexed(jobs, ts)
  {
    RowMet(jobs, ts, tmin + j, base + Offset(j, 4 * |ts|), |ts|, val)
  }

  /** Time point `tmin + j` is met: its blocks, and the running demand fits. */
  predicate StepMet(jobs: Jobs, ts: seq<nat>, cap: Capacity, tmin: int, base: nat, j: nat, val: Valuation)
    requires Indexed(jobs, ts)
  {
    StepRows(jobs, ts, tmin, base, j, val) && Demand(jobs, ts, tmin + j, |ts|, val) <= Eval(CapacityExpr(cap), val)
  }

  /** Time point `tmin + j`, read through `StepMet`. */
  lemma {:induction false} TimeStepMet(prev: seq<Record>, whole: seq<Record>, jobs: Jobs, ts: seq<nat>, maxR: int, cap: Capacity, tmin: int, base: nat, j: nat, val: Valuation)
    requires Usable(jobs, ts, maxR)
    requires whole == TimeStep(prev, jobs, ts, maxR, cap, tmin + j, base + Offset(j, 4 * |ts|))
    ensures Satisfies(whole, val) <==> Satisfies(prev, val) && StepMet(jobs, ts, cap, tmin, base, j, val)
  {
    TimeStepMeaning(prev, jobs, ts, maxR, cap, tmin + j, base + Offset(j, 4 * |ts|), val);
  }

  /** The `k`-th time point, read through `StepMet`. */
  lemma {:induction false} TimesAfterStep(log0: seq<Record>, jobs: Jobs, ts: seq<nat>, maxR: int, cap: Capacity, tmin: int, base: nat, k: nat, val: Valuation)
    requires Usable(jobs, ts, maxR) && k > 0
    ensures Satisfies(TimesAfter(log0, jobs, ts, maxR, cap, tmin, base, k), val) <==>
            Satisfies(TimesAfter(log0, jobs, ts, maxR, cap, tmin, base, k - 1), val) && StepMet(jobs, ts, cap, tmin, base, k - 1, val)
  {
    var prev := TimesAfter(log0, jobs, ts, maxR, cap, tmin, base, k - 1);
    var whole := TimesAfter(log0, jobs, ts, maxR, cap, tmin, base, k);
    assert whole == TimeStep(prev, jobs, ts, maxR, cap, tmin + (k - 1), base + Offset(k - 1, 4 * |ts|));
    TimeStepMet(prev, whole, jobs, ts, maxR, cap, tmin, base, k - 1, val);
  }

  /** The first `k` time points are met, as a recursive conjunction. */
  predicate TimesUpTo(jobs: Jobs, ts: seq<nat>, cap: Capacity, tmin: int, base: nat, k: nat, val: Valuation)
    requires Indexed(jobs, ts)
  {
    k == 0 || (TimesUpTo(jobs, ts, cap, tmin, base, k - 1, val) && StepMet(jobs, ts, cap, tmin, base, k - 1, val))
  }

  /** Satisfied time points are met. */
  lemma {:induction false} TimesAfterSound(log0: seq<Record>, jobs: Jobs, ts: seq<nat>, maxR: int, cap: Capacity, tmin: int, base: nat, k: nat, val: Valuation)
    requires Usable(jobs, ts, maxR)
    ensures Satisfies(TimesAfter(log0, jobs, ts, maxR, cap, tmin, base, k), val) ==>
            Satisfies(log0, val) && TimesUpTo(jobs, ts, cap, tmin, base, k, val)
  {
    if k > 0 {
      TimesAfterStep(log0, jobs, ts, maxR, cap, tmin, base, k, val);
      TimesAfterSound(log0, jobs, ts, maxR, cap, tmin, base, k - 1, val);
    }
  }

  /** Met time points satisfy their records. */
  lemma {:induction false} TimesAfterComplete(log0: seq<Record>, jobs: Jobs, ts: seq<nat>, maxR: int, cap: Capacity, tmin: int, base: nat, k: nat, val: Valuation)
    requires Usable(jobs, ts, maxR)
    requires Satisfies(log0, val) && TimesUpTo(jobs, ts, cap, tmin, base, k, val)
    ensures Satisfies(TimesAfter(log0, jobs, ts, maxR, cap, tmin, base, k), val)
  {
    if k > 0 {
      TimesAfterComplete(log0, jobs, ts, maxR, cap, tmin, base, k - 1, val);
      TimesAfterStep(log0, jobs, ts, maxR, cap, tmin, base, k, val);
    }
  }

  lemma {:induction false} TimesUpToAll(jobs: Jobs, ts: seq<nat>, cap: Capacity, tmin: int, base: nat, k: nat, val: Valuation)
    requires Indexed(jobs, ts)
    ensures TimesUpTo(jobs, ts, cap, tmin, base, k, val) <==> forall j :: 0 <= j < k ==> StepMet(jobs, ts, cap, tmin, base, j, val)
  {
    if k > 0 {
      TimesUpToAll(jobs, ts, cap, tmin, base, k - 1, val);
    }
  }

  /** The first `k` time points hold exactly when every one of them is met. */
  lemma {:induction false} TimesAfterMeaning(log0: seq<Record>, jobs: Jobs, ts: seq<nat>, maxR: int, cap: Capacity, tmin: int, base: nat, k: nat, val: Valuation)
    requires Usable(jobs, ts, maxR)
    ensures Satisfies(TimesAfter(log0, jobs, ts, maxR, cap, tmin, base, k), val) <==>
            Satisfies(log0, val) && forall j :: 0 <= j < k ==> StepMet(jobs, ts, cap, tmin, base, j, val)
  {
    TimesUpToAll(jobs, ts, cap, tmin, base, k, val);
    if Satisfies(TimesAfter(log0, jobs, ts, maxR, cap, tmin, base, k), val) {
      TimesAfterSound(log0, jobs, ts, maxR, cap, tmin, base, k, val);
    }
    if Satisfies(log0, val) && TimesUpTo(jobs, ts, cap, tmin, base, k, val) {
      TimesAfterComplete(log0, jobs, ts, maxR, cap, tmin, base, k, val);
    }
  }

  /** Every time point is met exactly when every block is right and the demand fits at every time. */
  lemma {:induction false} StepsSplit(jobs: Jobs, ts: seq<nat>, cap: Capacity, tmin: int, tmax: int, base: nat, val: Valuation)
    requires Indexed(jobs, ts)
    ensures var k := Count(tmin, tmax);
            (forall j :: 0 <= j < k ==> StepMet(jobs, ts, cap, tmin, base, j, val)) ==>
            (forall j :: 0 <= j < k ==> StepRows(jobs, ts, tmin, base, j, val)) &&
            (forall t :: tmin <= t <= tmax ==> Demand(jobs, ts, t, |ts|, val) <= Eval(CapacityExpr(cap), val))
    ensures var k := Count(tmin, tmax);
            (forall j :: 0 <= j < k ==> StepRows(jobs, ts, tmin, base, j, val)) &&
            (forall t :: tmin <= t <= tmax ==> Demand(jobs, ts, t, |ts|, val) <= Eval(CapacityExpr(cap), val)) ==>
            (forall j :: 0 <= j < k ==> StepMet(jobs, ts, cap, tmin, base, j, val))
  {
    var k := Count(tmin, tmax);
    if forall j :: 0 <= j < k ==> StepMet(jobs, ts, cap, tmin, base, j, val) {
      forall j | 0 <= j < k
        ensures StepRows(jobs, ts, tmin, base, j, val)
      {
        assert StepMet(jobs, ts, cap, tmin, base, j, val);
      }
      forall t | tmin <= t <= tmax
        ensures Demand(jobs, ts, t, |ts|, val) <= Eval(CapacityExpr(cap), val)
      {
        var j := t - tmin;
        assert StepMet(jobs, ts, cap, tmin, base, j, val);
        assert tmin + j == t;
      }
    }
    if (forall j :: 0 <= j < k ==> StepRows(jobs, ts, tmin, base, j, val)) &&
       (forall t :: tmin <= t <= tmax ==> Demand(jobs, ts, t, |ts|, val) <= Eval(CapacityExpr(cap), val)) {
      forall j | 0 <= j < k
        ensures StepMet(jobs, ts, cap, tmin, base, j, val)
      {
        assert Demand(jobs, ts, tmin + j, |ts|, val) <= Eval(CapacityExpr(cap), val);
      }
    }
  }

  /** The time points from `tmin` to `tmax` and the limit on a variable capacity. */
  lemma {:induction false} PlannedMeaning(log0: seq<Record>, jobs: Jobs, ts: seq<nat>, maxR: int, cap: Capacity, tmin: int, tmax: int, base: nat, val: Valuation)
    requires Usable(jobs, ts, maxR)
    ensures Satisfies(TimesAfter(log0, jobs, ts, maxR, cap, tmin, base, Count(tmin, tmax)) + LimitLog(jobs, cap), val) ==>
            Satisfies(log0, val) &&
            (forall j :: 0 <= j < Count(tmin, tmax) ==> StepRows(jobs, ts, tmin, base, j, val)) &&
            (forall t :: tmin <= t <= tmax ==> Demand(jobs, ts, t, |ts|, val) <= Eval(CapacityExpr(cap), val)) &&
            (cap.Variable? ==> val(cap.v) <= SumOf(jobs.r))
    ensures Satisfies(log0, val) &&
            (forall j :: 0 <= j < Count(tmin, tmax) ==> StepRows(jobs, ts, tmin, base, j, val)) &&
            (forall t :: tmin <= t <= tmax ==> Demand(jobs, ts, t, |ts|, val) <= Eval(CapacityExpr(cap), val)) &&
            (cap.Variable? ==> val(cap.v) <= SumOf(jobs.r)) ==>
            Satisfies(TimesAfter(log0, jobs, ts, maxR, cap, tmin, base, Count(tmin, tmax)) + LimitLog(jobs, cap), val)
  {
    var times := TimesAfter(log0, jobs, ts, maxR, cap, tmin, base, Count(tmin, tmax));
    var lim := LimitLog(jobs, cap);
    SatisfiesConcat(times, lim, val);
    if cap.Variable? {
      assert |lim| == 1 && lim[0] == Linear([], Value(cap.v), Le, Num(SumOf(jobs.r)));
      assert Satisfies(lim, val) <==> Holds(lim[0], val);
    }
    TimesAfterMeaning(log0, jobs, ts, maxR, cap, tmin, base, Count(tmin, tmax), val);
    StepsSplit(jobs, ts, cap, tmin, tmax, base, val);
  }

  /** Over the planned tasks, the demand at any time is the load of the jobs. */
  lemma {:induction false} PlanDemand(jobs: Jobs, val: Valuation)
    requires CumulativeError(jobs).None?
    ensures var p := MakePlan(jobs);
            forall t :: Demand(jobs, p.ts, t, |p.ts|, val) == JobsLoad(jobs, |jobs.s|, t, val)
  {
    forall t
      ensures Demand(jobs, MakePlan(jobs).ts, t, |MakePlan(jobs).ts|, val) == JobsLoad(jobs, |jobs.s|, t, val)
    {
      DemandAll(jobs, |jobs.s|, t, val);
    }
  }

  /**
   * A valuation satisfies the log of `my_cumulative` exactly when it
   * satisfies the log before, every block's variables are right, at every
   * time point from `tmin` to `tmax` the summed demand of the jobs with
   * positive demand and duration running then is at most the limit, and a
   * variable limit is at most `sum(r)`.
   */
  lemma {:induction false} CumulativeMeaning(log0: seq<Record>, jobs: Jobs, cap: Capacity, base: nat, val: Valuation)
    requires CumulativeError(jobs).None?
    ensures var p := MakePlan(jobs);
            Satisfies(CumulativeLog(log0, jobs, cap, base), val) ==>
            Satisfies(log0, val) &&
            (forall j :: 0 <= j < Count(p.tmin, p.tmax) ==> StepRows(jobs, p.ts, p.tmin, base, j, val)) &&
            (forall t :: p.tmin <= t <= p.tmax ==> JobsLoad(jobs, |jobs.s|, t, val) <= Eval(CapacityExpr(cap), val)) &&
            (cap.Variable? ==> val(cap.v) <= SumOf(jobs.r))
    ensures var p := MakePlan(jobs);
            Satisfies(log0, val) &&
            (forall j :: 0 <= j < Count(p.tmin, p.tmax) ==> StepRows(jobs, p.ts, p.tmin, base, j, val)) &&
            (forall t :: p.tmin <= t <= p.tmax ==> JobsLoad(jobs, |jobs.s|, t, val) <= Eval(CapacityExpr(cap), val)) &&
            (cap.Variable? ==> val(cap.v) <= SumOf(jobs.r)) ==>
            Satisfies(CumulativeLog(log0, jobs, cap, base), val)
  {
    var p := MakePlan(jobs);
    assert CumulativeLog(log0, jobs, cap, base) ==
           TimesAfter(log0, jobs, p.ts, p.maxR, cap, p.tmin, base, Count(p.tmin, p.tmax)) + LimitLog(jobs, cap);
    PlannedMeaning(log0, jobs, p.ts, p.maxR, cap, p.tmin, p.tmax, base, val);
    PlanDemand(jobs, val);
  }
}
