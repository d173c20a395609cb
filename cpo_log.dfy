/**
 * A CP Optimizer model seen as an append-only log of records over interval
 * variables, as the CP Optimizer back end (`pyjobshop/solvers/cpoptimizer`)
 * builds it. Nothing here solves anything: a valuation gives every interval
 * variable a presence, a start, an end and a size, and each record has a
 * satisfaction predicate `Holds` over such a valuation.
 *
 * Interval variables are numbered in creation order. In expressions an
 * absent interval's start and end count as 0 (the default absent value of
 * `start_of` and `end_of`) and `presence_of` is 0 or 1.
 */
module CpoLog {
  import opened Wrappers
  import CpLog

  type IVar = nat

  /** The value of one interval variable. */
  datatype IntervalValue = IntervalValue(present: bool, start: int, end: int, size: int)

  type Valuation = IVar -> IntervalValue

  /** An interval variable and whether it was created optional. */
  datatype IntervalVar = IntervalVar(id: IVar, optional: bool)

  /** The bounds set through `set_start_min`, `set_end_max`, `set_size_min`, ...; `None` is unset. */
  datatype Bounds = Bounds(
    startMin: Option<int>,
    startMax: Option<int>,
    endMin: Option<int>,
    endMax: Option<int>,
    sizeMin: Option<int>,
    sizeMax: Option<int>)

  function NoBounds(): Bounds
  {
    Bounds(None, None, None, None, None, None)
  }

  predicate AtLeast(x: int, bound: Option<int>)
  {
    bound.None? || bound.value <= x
  }

  predicate AtMost(x: int, bound: Option<int>)
  {
    bound.None? || x <= bound.value
  }

  predicate WithinBounds(v: IntervalValue, b: Bounds)
  {
    && AtLeast(v.start, b.startMin) && AtMost(v.start, b.startMax)
    && AtLeast(v.end, b.endMin) && AtMost(v.end, b.endMax)
    && AtLeast(v.size, b.sizeMin) && AtMost(v.size, b.sizeMax)
  }

  /** A sequence variable: its name, its intervals and one integer type per interval. */
  datatype SequenceVar = SequenceVar(name: string, intervals: seq<IVar>, types: seq<int>)

  datatype Point = Start | End

  function PointOf(v: IntervalValue, p: Point): int
  {
    if p == Start then v.start else v.end
  }

  datatype CExpr =
    | CNum(c: int)
    | PresenceOf(x: IVar)
    | StartOf(x: IVar)
    | EndOf(x: IVar)
    | Add(a: CExpr, b: CExpr)
    | Scale(k: int, a: CExpr)
    | Max2(a: CExpr, b: CExpr)
    /** `greater(a, b)`: 1 when `a > b`, else 0. */
    | Greater(a: CExpr, b: CExpr)

  function Eval(e: CExpr, val: Valuation): int
  {
    match e
    case CNum(c) => c
    case PresenceOf(x) => if val(x).present then 1 else 0
    case StartOf(x) => if val(x).present then val(x).start else 0
    case EndOf(x) => if val(x).present then val(x).end else 0
    case Add(a, b) => Eval(a, val) + Eval(b, val)
    case Scale(k, a) => k * Eval(a, val)
    case Max2(a, b) => if Eval(a, val) >= Eval(b, val) then Eval(a, val) else Eval(b, val)
    case Greater(a, b) => if Eval(a, val) > Eval(b, val) then 1 else 0
  }

  function Minus(a: CExpr, b: CExpr): (r: CExpr)
    ensures forall val :: Eval(r, val) == Eval(a, val) - Eval(b, val)
  {
    Add(a, Scale(-1, b))
  }

  /** The sum of the values of `es`. */
  function Total(es: seq<CExpr>, val: Valuation): int
  {
    if es == [] then 0 else Total(es[..|es| - 1], val) + Eval(es[|es| - 1], val)
  }

  /** `sum(es)` / `model.sum(es)`, built left to right from 0. */
  function Sum(es: seq<CExpr>): (r: CExpr)
    ensures forall val :: Eval(r, val) == Total(es, val)
  {
    if es == [] then CNum(0) else Add(Sum(es[..|es| - 1]), es[|es| - 1])
  }

  function Values(es: seq<CExpr>, val: Valuation): (r: seq<int>)
    ensures |r| == |es| && forall i :: 0 <= i < |es| ==> r[i] == Eval(es[i], val)
  {
    seq(|es|, i requires 0 <= i < |es| => Eval(es[i], val))
  }

  /** `max(es)` over a non-empty list. */
  function MaxList(es: seq<CExpr>): (r: CExpr)
    requires es != []
    ensures forall val :: Eval(r, val) == CpLog.Max(Values(es, val))
  {
    if |es| == 1 then es[0]
    else
      var init := es[..|es| - 1];
      var r := Max2(MaxList(init), es[|es| - 1]);
      forall val
        ensures Eval(r, val) == CpLog.Max(Values(es, val))
      {
        assert Values(es, val)[..|es| - 1] == Values(init, val);
      }
      r
  }

  /** The transition distance between positions `i` and `j` of a sequence. */
  function Distance(matrix: Option<seq<seq<int>>>, types: seq<int>, i: nat, j: nat): int
    requires i < |types| && j < |types|
  {
    if matrix.None? then 0
    else if 0 <= types[i] < |matrix.value| && 0 <= types[j] < |matrix.value[types[i]]| then matrix.value[types[i]][types[j]]
    else 0
  }

  /** Every type of the sequence indexes a row and a column of the matrix. */
  predicate TypesIndex(matrix: seq<seq<int>>, types: seq<int>)
  {
    forall i, j :: 0 <= i < |types| && 0 <= j < |types| ==>
      0 <= types[i] < |matrix| && 0 <= types[j] < |matrix[types[i]]|
  }

  /** The summed demand of the pulses whose interval is present and runs at time `t`. */
  function PulseLoad(pulses: seq<(IVar, int)>, t: int, val: Valuation): int
  {
    if pulses == [] then 0
    else
      var (x, h) := pulses[|pulses| - 1];
      PulseLoad(pulses[..|pulses| - 1], t, val) + (if val(x).present && val(x).start <= t < val(x).end then h else 0)
  }

  datatype Record =
    /** `interval_var(...)` with its bounds set, then `model.add(var)`. */
    | Interval(x: IntervalVar, name: string, bounds: Bounds)
    | Sequence(s: SequenceVar)
    | Span(main: IVar, parts: seq<IVar>)
    | Alternative(main: IVar, alts: seq<IVar>)
    | NoOverlap(s: SequenceVar, matrix: Option<seq<seq<int>>>)
    /** `sum(pulse(x, h) for ...) <= capacity`. */
    | PulseCap(pulses: seq<(IVar, int)>, capacity: int)
    | LessEq(lhs: CExpr, rhs: CExpr)
    /** `start_before_start(a, b, delay)` and its three siblings. */
    | Precedence(a: IVar, pa: Point, b: IVar, pb: Point, delay: int)
    | Previous(s: SequenceVar, a: IVar, b: IVar)
    | Minimize(e: CExpr)

  predicate Present(val: Valuation, x: IVar)
  {
    val(x).present
  }

  ghost predicate SpanHolds(main: IVar, parts: seq<IVar>, val: Valuation)
  {
    && (Present(val, main) <==> exists i :: 0 <= i < |parts| && Present(val, parts[i]))
    && (Present(val, main) ==>
          && (forall i :: 0 <= i < |parts| && Present(val, parts[i]) ==>
                val(main).start <= val(parts[i]).start && val(parts[i]).end <= val(main).end)
          && (exists i :: 0 <= i < |parts| && Present(val, parts[i]) && val(parts[i]).start == val(main).start)
          && (exists i :: 0 <= i < |parts| && Present(val, parts[i]) && val(parts[i]).end == val(main).end))
  }

  ghost predicate AlternativeHolds(main: IVar, alts: seq<IVar>, val: Valuation)
  {
    && (Present(val, main) ==>
          exists i :: 0 <= i < |alts| && Present(val, alts[i])
                      && val(alts[i]).start == val(main).start && val(alts[i]).end == val(main).end
                      && forall j :: 0 <= j < |alts| && j != i ==> !Present(val, alts[j]))
    && (!Present(val, main) ==> forall j :: 0 <= j < |alts| ==> !Present(val, alts[j]))
  }

  ghost predicate NoOverlapHolds(s: SequenceVar, matrix: Option<seq<seq<int>>>, val: Valuation)
  {
    && |s.types| == |s.intervals|
    && (matrix.Some? ==> TypesIndex(matrix.value, s.types))
    && forall i, j :: (0 <= i < |s.intervals| && 0 <= j < |s.intervals| && i != j
                       && Present(val, s.intervals[i]) && Present(val, s.intervals[j])) ==>
         val(s.intervals[i]).end + Distance(matrix, s.types, i, j) <= val(s.intervals[j]).start
         || val(s.intervals[j]).end + Distance(matrix, s.types, j, i) <= val(s.intervals[i]).start
  }

  ghost predicate Holds(r: Record, val: Valuation)
  {
    match r
    case Interval(x, _, bounds) =>
      && (!x.optional ==> Present(val, x.id))
      && (Present(val, x.id) ==>
            var v := val(x.id);
            v.start <= v.end && v.size == v.end - v.start && WithinBounds(v, bounds))
    case Sequence(_) => true
    case Span(main, parts) => SpanHolds(main, parts, val)
    case Alternative(main, alts) => AlternativeHolds(main, alts, val)
    case NoOverlap(s, matrix) => NoOverlapHolds(s, matrix, val)
    case PulseCap(pulses, capacity) => forall t :: PulseLoad(pulses, t, val) <= capacity
    case LessEq(lhs, rhs) => Eval(lhs, val) <= Eval(rhs, val)
    case Precedence(a, pa, b, pb, delay) =>
      Present(val, a) && Present(val, b) ==> PointOf(val(a), pa) + delay <= PointOf(val(b), pb)
    // The order inside a sequence is internal to the solver and not modelled.
    case Previous(_, _, _) => true
    case Minimize(_) => true
  }

  ghost predicate Satisfies(log: seq<Record>, val: Valuation)
  {
    forall i {:trigger Holds(log[i], val)} :: 0 <= i < |log| ==> Holds(log[i], val)
  }

  /** A satisfied log satisfies every record it contains. */
  lemma {:induction false} SatisfiesMember(log: seq<Record>, r: Record, val: Valuation)
    requires Satisfies(log, val) && r in log
    ensures Holds(r, val)
  {
    var i :| 0 <= i < |log| && log[i] == r;
    assert Holds(log[i], val);
  }

  lemma {:induction false} SatisfiesLeft(a: seq<Record>, b: seq<Record>, val: Valuation)
    requires Satisfies(a + b, val)
    ensures Satisfies(a, val)
  {
    forall i | 0 <= i < |a|
      ensures Holds(a[i], val)
    {
      assert (a + b)[i] == a[i];
    }
  }

  lemma {:induction false} SatisfiesRight(a: seq<Record>, b: seq<Record>, val: Valuation)
    requires Satisfies(a + b, val)
    ensures Satisfies(b, val)
  {
    forall i | 0 <= i < |b|
      ensures Holds(b[i], val)
    {
      assert (a + b)[|a| + i] == b[i];
    }
  }

  /**
   * `presence_of(var)` of `pyjobshop/solvers/cpoptimizer/utils.py`: the
   * solver's presence expression for an optional variable, the constant 1
   * for one that is always present.
   */
  function PresenceExpr(x: IntervalVar): (e: CExpr)
    ensures x.optional ==> e == PresenceOf(x.id)
    ensures !x.optional ==> e == CNum(1)
  {
    if x.optional then PresenceOf(x.id) else CNum(1)
  }

  /** Every non-optional variable among `xs` is present. */
  predicate RespectsOptional(xs: seq<IntervalVar>, val: Valuation)
  {
    forall k :: 0 <= k < |xs| && !xs[k].optional ==> Present(val, xs[k].id)
  }

  /** Where non-optional variables are present, `presence_of` is 1 exactly for present variables. */
  lemma {:induction false} PresenceMeaning(x: IntervalVar, val: Valuation)
    requires !x.optional ==> Present(val, x.id)
    ensures Eval(PresenceExpr(x), val) == if Present(val, x.id) then 1 else 0
  {
  }

  /** The position of the first occurrence of `r`. */
  function FirstIndex(log: seq<Record>, r: Record): (i: nat)
    requires r in log
    ensures i < |log| && log[i] == r && r !in log[..i]
  {
    if log[0] == r then 0
    else
      var i := FirstIndex(log[1..], r);
      assert log[..i + 1] == [log[0]] + log[1..][..i];
      i + 1
  }

  /** `log` without the first occurrence of `r`; unchanged when `r` does not occur. */
  function RemoveFirst(log: seq<Record>, r: Record): (s: seq<Record>)
    ensures r !in log ==> s == log
    ensures r in log ==> |s| == |log| - 1
  {
    if r in log then log[..FirstIndex(log, r)] + log[FirstIndex(log, r) + 1..] else log
  }

  /** Removing takes exactly one copy of `r` out of the log, when there is one. */
  lemma RemoveFirstCount(log: seq<Record>, r: Record)
    ensures multiset(RemoveFirst(log, r)) == multiset(log) - multiset{r}
  {
    if r in log {
      var i := FirstIndex(log, r);
      assert log == log[..i] + [r] + log[i + 1..];
      calc {
        multiset(log);
        multiset(log[..i]) + multiset{r} + multiset(log[i + 1..]);
        multiset(RemoveFirst(log, r)) + multiset{r};
      }
    } else {
      assert multiset(log)[r] == 0;
    }
  }

  /** A starting-point entry for one interval variable. */
  datatype IntervalHint = IntervalHint(x: IVar, present: bool, start: int, end: int, length: Option<int>)

  /**
   * The CP Optimizer model under construction: the records added so far,
   * the number of interval variables created and the starting point.
   */
  class Model {
    var log: seq<Record>
    var next: nat
    var startingPoint: Option<seq<IntervalHint>>

    constructor ()
      ensures log == [] && next == 0 && startingPoint == None
    {
      log := [];
      next := 0;
      startingPoint := None;
    }

    /** `model.add(r)`. */
    method Add(r: Record)
      modifies this
      ensures log == old(log) + [r]
      ensures next == old(next) && startingPoint == old(startingPoint)
    {
      log := log + [r];
    }

    /** `model.remove(r)`. */
    method Remove(r: Record)
      modifies this
      ensures log == RemoveFirst(old(log), r)
      ensures next == old(next) && startingPoint == old(startingPoint)
    {
      log := RemoveFirst(log, r);
    }

    /** A fresh interval variable with the given bounds, added to the model. */
    method NewInterval(optional: bool, name: string, bounds: Bounds) returns (x: IntervalVar)
      modifies this
      ensures x == IntervalVar(old(next), optional) && next == old(next) + 1
      ensures log == old(log) + [Interval(x, name, bounds)]
      ensures startingPoint == old(startingPoint)
    {
      x := IntervalVar(next, optional);
      next := next + 1;
      log := log + [Interval(x, name, bounds)];
    }

    /** `model.set_starting_point(hints)`. */
    method SetStartingPoint(hints: seq<IntervalHint>)
      modifies this
      ensures startingPoint == Some(hints)
      ensures log == old(log) && next == old(next)
    {
      startingPoint := Some(hints);
    }
  }
}
