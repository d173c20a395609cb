/**
 * The decompositions of `cpmodel/hakank.py`: an occurrence count, bounds on
 * it, "all different except 0", a scalar product, a time-indexed cumulative
 * constraint and the global cardinality constraint, each built from CP-SAT
 * primitives. Every builder appends records to the model's log; the lemmas
 * say what a valuation satisfying those records means for the variables
 * involved.
 */
module Hakank {
  import opened Wrappers
  import opened CpLog
  import CpModelPlus
  import opened CpModelPlusVars

  /** The exceptions Python raises inside these helpers. */
  datatype HakankError =
    | EmptySequence   // ValueError: `max` or `min` of an empty list
    | NotTwoBounds    // ValueError: a domain that does not unpack into two bounds
    | MissingEntry    // IndexError: a list shorter than the loop over it
    | LengthMismatch  // AssertionError of `global_cardinality`

  // ---------------------------------------------------------------------------
  // Indicator variables
  // ---------------------------------------------------------------------------

  /**
   * Indicator `b` reifies `x == v` (when `eq`) or `x != v` (otherwise): the
   * comparison enforced on `b` and its negation enforced on `~b`.
   */
  function Reify(x: Var, v: Expr, eq: bool, b: Var): seq<Record>
  {
    if eq then [Linear([Pos(b)], Value(x), Eq, v), Linear([Neg(b)], Value(x), Ne, v)]
    else [Linear([Pos(b)], Value(x), Ne, v), Linear([Neg(b)], Value(x), Eq, v)]
  }

  /** `log0` followed by the reifications of the first `n` entries of `xs`, indicators from `base`. */
  function ReifiedAfter(log0: seq<Record>, xs: seq<Var>, v: Expr, eq: bool, base: nat, n: nat): seq<Record>
    requires n <= |xs|
  {
    if n == 0 then log0 else ReifiedAfter(log0, xs, v, eq, base, n - 1) + Reify(xs[n - 1], v, eq, base + n - 1)
  }

  /** One Boolean indicator per entry of `xs`, numbered from `base`, then their reifications. */
  function IndicatorsLog(log0: seq<Record>, xs: seq<Var>, v: Expr, eq: bool, base: nat): seq<Record>
  {
    ReifiedAfter(BoolVarsAfter(log0, base, |xs|), xs, v, eq, base, |xs|)
  }

  /** Indicator `base + i` is 1 exactly when the comparison of `xs[i]` with `v` holds. */
  predicate Reified(xs: seq<Var>, v: Expr, eq: bool, base: nat, i: nat, val: Valuation)
    requires i < |xs|
  {
    val(base + i) == if (val(xs[i]) == Eval(v, val)) == eq then 1 else 0
  }

  /** Every indicator from `base` marks its entry. */
  predicate AllReified(xs: seq<Var>, v: Expr, eq: bool, base: nat, val: Valuation)
  {
    forall i :: 0 <= i < |xs| ==> Reified(xs, v, eq, base, i, val)
  }

  /** The records of one reification, without the declaration of the indicator. */
  predicate ReifyMet(xs: seq<Var>, v: Expr, eq: bool, base: nat, i: nat, val: Valuation)
    requires i < |xs|
  {
    (val(base + i) == 1 ==> (val(xs[i]) == Eval(v, val)) == eq) &&
    (val(base + i) == 0 ==> (val(xs[i]) == Eval(v, val)) != eq)
  }

  method AddReify(m: Model, x: Var, v: Expr, eq: bool, b: Var)
    modifies m
    ensures m.log == old(m.log) + Reify(x, v, eq, b)
    ensures m.next == old(m.next) && m.hints == old(m.hints) && m.objective == old(m.objective)
  {
    ghost var log0 := m.log;
    if eq {
      m.Add(Linear([Pos(b)], Value(x), Eq, v));
      m.Add(Linear([Neg(b)], Value(x), Ne, v));
    } else {
      m.Add(Linear([Pos(b)], Value(x), Ne, v));
      m.Add(Linear([Neg(b)], Value(x), Eq, v));
    }
    assert m.log == log0 + Reify(x, v, eq, b);
  }

  /**
   * Declares one Boolean indicator per entry of `xs`, numbered from
   * `old(m.next)`, then ties each to its entry.
   */
  method AddIndicators(m: Model, xs: seq<Var>, v: Expr, eq: bool) returns (base: Var)
    modifies m
    ensures base == old(m.next) && m.next == base + |xs|
    ensures m.log == IndicatorsLog(old(m.log), xs, v, eq, base)
    ensures m.hints == old(m.hints) && m.objective == old(m.objective)
  {
    base := m.next;
    ghost var log0 := m.log;
    var n := |xs|;
    var k: nat := 0;
    while k < n
      invariant k <= n && m.next == base + k
      invariant m.log == BoolVarsAfter(log0, base, k)
      invariant m.hints == old(m.hints) && m.objective == old(m.objective)
    {
      var b := m.NewBoolVar();
      k := k + 1;
    }
    ghost var log1 := m.log;
    k := 0;
    while k < n
      invariant k <= n && m.next == base + n
      invariant m.log == ReifiedAfter(log1, xs, v, eq, base, k)
      invariant m.hints == old(m.hints) && m.objective == old(m.objective)
    {
      AddReify(m, xs[k], v, eq, base + k);
      k := k + 1;
    }
  }

  /** One reification holds exactly when its records do. */
  lemma {:induction false} ReifyMeaning(xs: seq<Var>, v: Expr, eq: bool, base: nat, i: nat, val: Valuation)
    requires i < |xs|
    ensures Satisfies(Reify(xs[i], v, eq, base + i), val) <==> ReifyMet(xs, v, eq, base, i, val)
  {
    var b := base + i;
    assert AllTrue([Pos(b)], val) <==> val(b) == 1 by {
      assert [Pos(b)][0] == Pos(b);
    }
    assert AllTrue([Neg(b)], val) <==> val(b) == 0 by {
      assert [Neg(b)][0] == Neg(b);
    }
    var r := Reify(xs[i], v, eq, b);
    assert Satisfies(r, val) <==> Holds(r[0], val) && Holds(r[1], val);
  }

  lemma {:induction false} ReifiedAfterMeaning(log0: seq<Record>, xs: seq<Var>, v: Expr, eq: bool, base: nat, n: nat, val: Valuation)
    requires n <= |xs|
    ensures Satisfies(ReifiedAfter(log0, xs, v, eq, base, n), val) <==>
            Satisfies(log0, val) && forall i :: 0 <= i < n ==> ReifyMet(xs, v, eq, base, i, val)
  {
    if n > 0 {
      ReifiedAfterMeaning(log0, xs, v, eq, base, n - 1, val);
      SatisfiesConcat(ReifiedAfter(log0, xs, v, eq, base, n - 1), Reify(xs[n - 1], v, eq, base + n - 1), val);
      ReifyMeaning(xs, v, eq, base, n - 1, val);
    }
  }

  /**
   * The indicator records hold exactly when the log before them does and
   * every indicator is 1 when its comparison holds and 0 otherwise.
   */
  lemma {:induction false} IndicatorsMeaning(log0: seq<Record>, xs: seq<Var>, v: Expr, eq: bool, base: nat, val: Valuation)
    ensures Satisfies(IndicatorsLog(log0, xs, v, eq, base), val) <==>
            Satisfies(log0, val) && AllReified(xs, v, eq, base, val)
  {
    var n := |xs|;
    var bools := BoolVarsAfter(log0, base, n);
    ReifiedAfterMeaning(bools, xs, v, eq, base, n, val);
    if Satisfies(IndicatorsLog(log0, xs, v, eq, base), val) {
      BoolVarsSound(log0, base, n, val);
      forall i | 0 <= i < n
        ensures Reified(xs, v, eq, base, i, val)
      {
        assert ReifyMet(xs, v, eq, base, i, val);
        assert base <= base + i < base + n;
      }
    }
    if Satisfies(log0, val) && AllReified(xs, v, eq, base, val) {
      forall w | base <= w < base + n
        ensures 0 <= val(w) <= 1
      {
        assert Reified(xs, v, eq, base, w - base, val);
      }
      BoolVarsHold(log0, base, n, val);
      forall i | 0 <= i < n
        ensures ReifyMet(xs, v, eq, base, i, val)
      {
        assert Reified(xs, v, eq, base, i, val);
      }
    }
  }

  // ---------------------------------------------------------------------------
  // new_count_var
  // ---------------------------------------------------------------------------

  /** The number of entries of `xs` whose value is `target`. */
  function Occurrences(xs: seq<Var>, target: int, val: Valuation): (n: nat)
    ensures n <= |xs|
  {
    if xs == [] then 0
    else Occurrences(xs[..|xs| - 1], target, val) + (if val(xs[|xs| - 1]) == target then 1 else 0)
  }

  /**
   * The log after `new_count_var(xs, v)` with count variable `c`: its
   * declaration over `[0, |xs|]`, the equality indicators `c + 1`, ... and
   * `c == sum(indicators)`.
   */
  function CountLog(log0: seq<Record>, xs: seq<Var>, v: Expr, c: Var): seq<Record>
  {
    IndicatorsLog(log0 + [IntVar(c, 0, |xs|)], xs, v, true, c + 1) +
    [Linear([], Value(c), Eq, VarSum(c + 1, |xs|))]
  }

  /** `new_count_var`: the count variable is numbered `old(m.next)`, its indicators follow it. */
  method NewCountVar(m: Model, xs: seq<Var>, v: Expr) returns (c: Var)
    modifies m
    ensures c == old(m.next) && m.next == old(m.next) + 1 + |xs|
    ensures m.log == CountLog(old(m.log), xs, v, c)
    ensures m.hints == old(m.hints) && m.objective == old(m.objective)
  {
    c := m.NewIntVar(0, |xs|);
    var base := AddIndicators(m, xs, v, true);
    m.Add(Linear([], Value(c), Eq, VarSum(c + 1, |xs|)));
  }

  /** The count variable `c` holds the number of entries equal to `v`, its indicators mark them. */
  predicate Counted(xs: seq<Var>, v: Expr, c: Var, val: Valuation)
  {
    AllReified(xs, v, true, c + 1, val) && val(c) == Occurrences(xs, Eval(v, val), val)
  }

  /** `sum(vs)` over the variables `base`, ..., `base + n - 1`, added left to right from 0. */
  function VarSum(base: nat, n: nat): Expr
  {
    if n == 0 then Num(0) else Plus(VarSum(base, n - 1), Value(base + n - 1))
  }

  /** On correct indicators, their sum is the number of entries equal to `v`. */
  lemma {:induction false} IndicatorCount(xs: seq<Var>, v: Expr, base: nat, n: nat, val: Valuation)
    requires n <= |xs|
    requires forall i :: 0 <= i < n ==> Reified(xs, v, true, base, i, val)
    ensures Eval(VarSum(base, n), val) == Occurrences(xs[..n], Eval(v, val), val)
  {
    if n > 0 {
      IndicatorCount(xs, v, base, n - 1, val);
      assert xs[..n][..n - 1] == xs[..n - 1];
      assert Reified(xs, v, true, base, n - 1, val);
    }
  }

  /**
   * `new_count_var`'s records hold exactly when the count variable equals
   * the number of entries of `xs` equal to `v` (hence lies in
   * `[0, |xs|]`) and each indicator marks whether its entry equals `v`.
   */
  lemma {:induction false} CountMeaning(log0: seq<Record>, xs: seq<Var>, v: Expr, c: Var, val: Valuation)
    ensures Satisfies(CountLog(log0, xs, v, c), val) <==> Satisfies(log0, val) && Counted(xs, v, c, val)
    ensures Satisfies(CountLog(log0, xs, v, c), val) ==> 0 <= val(c) <= |xs|
  {
    var n := |xs|;
    var first := log0 + [IntVar(c, 0, n)];
    var inds := IndicatorsLog(first, xs, v, true, c + 1);
    var total := Linear([], Value(c), Eq, VarSum(c + 1, n));
    CpModelPlus.SatisfiesSnoc(inds, total, val);
    CpModelPlus.SatisfiesSnoc(log0, IntVar(c, 0, n), val);
    IndicatorsMeaning(first, xs, v, true, c + 1, val);
    assert xs[..n] == xs;
    if Satisfies(log0, val) && AllReified(xs, v, true, c + 1, val) {
      IndicatorCount(xs, v, c + 1, n, val);
    }
  }

  // ---------------------------------------------------------------------------
  // at_most, at_least and exactly
  // ---------------------------------------------------------------------------

  /** Which bound a cardinality helper puts on the count. */
  datatype Bound = Most | Least | Exact

  /** `count_var <= n`, `count_var >= n` or `count_var == n`. */
  function BoundRecord(c: Var, n: int, kind: Bound): Record
  {
    match kind
    case Most => Linear([], Value(c), Le, Num(n))
    case Least => Linear([], Num(n), Le, Value(c))
    case Exact => Linear([], Value(c), Eq, Num(n))
  }

  predicate Within(count: int, n: int, kind: Bound)
  {
    match kind
    case Most => count <= n
    case Least => count >= n
    case Exact => count == n
  }

  /** The log after a cardinality helper whose count variable is `c`. */
  function BoundLog(log0: seq<Record>, v: Expr, xs: seq<Var>, n: int, kind: Bound, c: Var): seq<Record>
  {
    CountLog(log0, xs, v, c) + [BoundRecord(c, n, kind)]
  }

  /** `at_most`: at most `n` entries of `xs` equal `v`. */
  method AtMost(m: Model, v: Expr, xs: seq<Var>, n: int)
    modifies m
    ensures m.next == old(m.next) + 1 + |xs|
    ensures m.log == BoundLog(old(m.log), v, xs, n, Most, old(m.next))
    ensures m.hints == old(m.hints) && m.objective == old(m.objective)
  {
    var c := NewCountVar(m, xs, v);
    m.Add(Linear([], Value(c), Le, Num(n)));
  }

  /** `at_least`: at least `n` entries of `xs` equal `v`. */
  method AtLeast(m: Model, v: Expr, xs: seq<Var>, n: int)
    modifies m
    ensures m.next == old(m.next) + 1 + |xs|
    ensures m.log == BoundLog(old(m.log), v, xs, n, Least, old(m.next))
    ensures m.hints == old(m.hints) && m.objective == old(m.objective)
  {
    var c := NewCountVar(m, xs, v);
    m.Add(Linear([], Num(n), Le, Value(c)));
  }

  /** `exactly`: exactly `n` entries of `xs` equal `v`. */
  method Exactly(m: Model, v: Expr, xs: seq<Var>, n: int)
    modifies m
    ensures m.next == old(m.next) + 1 + |xs|
    ensures m.log == BoundLog(old(m.log), v, xs, n, Exact, old(m.next))
    ensures m.hints == old(m.hints) && m.objective == old(m.objective)
  {
    var c := NewCountVar(m, xs, v);
    m.Add(Linear([], Value(c), Eq, Num(n)));
  }

  /**
   * A cardinality helper's records hold exactly when the count is right
   * and the number of entries equal to `v` is at most, at least or exactly `n`.
   */
  lemma {:induction false} BoundMeaning(log0: seq<Record>, v: Expr, xs: seq<Var>, n: int, kind: Bound, c: Var, val: Valuation)
    ensures Satisfies(BoundLog(log0, v, xs, n, kind, c), val) <==>
            Satisfies(log0, val) && Counted(xs, v, c, val) && Within(Occurrences(xs, Eval(v, val), val), n, kind)
  {
    CountMeaning(log0, xs, v, c, val);
    CpModelPlus.SatisfiesSnoc(CountLog(log0, xs, v, c), BoundRecord(c, n, kind), val);
  }

  // ---------------------------------------------------------------------------
  // all_different_except_0
  // ---------------------------------------------------------------------------

  /** The number of pair variables in the rows before row `i`: 0 + 1 + ... + (i - 1). */
  function Tri(i: nat): nat
  {
    if i == 0 then 0 else Tri(i - 1) + i - 1
  }

  /** The pair variable of `(i, j)`, `j < i`: after the `|a|` flags from `base`, row by row. */
  function PairVar(a: seq<Var>, base: nat, i: nat, j: nat): nat
  {
    base + |a| + Tri(i) + j
  }

  /**
   * The records of pair `(i, j)`: its variable `b`, `ba[i] && ba[j]`
   * enforced on `b`, `~ba[i] || ~ba[j]` on `~b`, and `a[i] != a[j]` on `b`.
   */
  function PairBlock(a: seq<Var>, base: nat, i: nat, j: nat): seq<Record>
    requires j < i < |a|
  {
    var b := PairVar(a, base, i, j);
    [BoolVar(b),
     BoolAnd([Pos(b)], [Pos(base + i), Pos(base + j)]),
     BoolOr([Neg(b)], [Neg(base + i), Neg(base + j)]),
     Linear([Pos(b)], Value(a[i]), Ne, Value(a[j]))]
  }

  /** `log0` followed by the first `k` pairs of row `i`. */
  function RowAfter(log0: seq<Record>, a: seq<Var>, base: nat, i: nat, k: nat): seq<Record>
    requires k <= i < |a|
  {
    if k == 0 then log0 else RowAfter(log0, a, base, i, k - 1) + PairBlock(a, base, i, k - 1)
  }

  /** `log0` followed by the rows before row `i`. */
  function RowsAfter(log0: seq<Record>, a: seq<Var>, base: nat, i: nat): seq<Record>
    requires i <= |a|
  {
    if i == 0 then log0 else RowAfter(RowsAfter(log0, a, base, i - 1), a, base, i - 1, i - 1)
  }

  /**
   * The log after `all_different_except_0(a)`: the flags `base`, ... with
   * flag `i` reifying `a[i] != 0`, then one pair per `j < i`.
   */
  function DistinctLog(log0: seq<Record>, a: seq<Var>, base: nat): seq<Record>
  {
    RowsAfter(IndicatorsLog(log0, a, Num(0), false, base), a, base, |a|)
  }

  method AddPair(m: Model, a: seq<Var>, base: nat, i: nat, j: nat)
    requires j < i < |a| && m.next == PairVar(a, base, i, j)
    modifies m
    ensures m.next == old(m.next) + 1
    ensures m.log == old(m.log) + PairBlock(a, base, i, j)
    ensures m.hints == old(m.hints) && m.objective == old(m.objective)
  {
    ghost var log0 := m.log;
    var b := m.NewBoolVar();
    m.Add(BoolAnd([Pos(b)], [Pos(base + i), Pos(base + j)]));
    m.Add(BoolOr([Neg(b)], [Neg(base + i), Neg(base + j)]));
    m.Add(Linear([Pos(b)], Value(a[i]), Ne, Value(a[j])));
    assert m.log == log0 + PairBlock(a, base, i, j);
  }

  /** Row `i` of the nested loop: one pair for each `j < i`. */
  method AddRow(m: Model, a: seq<Var>, base: nat, i: nat)
    requires i < |a| && m.next == base + |a| + Tri(i)
    modifies m
    ensures m.next == old(m.next) + i
    ensures m.log == RowAfter(old(m.log), a, base, i, i)
    ensures m.hints == old(m.hints) && m.objective == old(m.objective)
  {
    var j: nat := 0;
    while j < i
      invariant j <= i && m.next == base + |a| + Tri(i) + j
      invariant m.log == RowAfter(old(m.log), a, base, i, j)
      invariant m.hints == old(m.hints) && m.objective == old(m.objective)
    {
      AddPair(m, a, base, i, j);
      j := j + 1;
    }
  }

  /** `all_different_except_0`: the flags are numbered from `old(m.next)`, the pair variables follow. */
  method AllDifferentExcept0(m: Model, a: seq<Var>)
    modifies m
    ensures m.next == old(m.next) + |a| + Tri(|a|)
    ensures m.log == DistinctLog(old(m.log), a, old(m.next))
    ensures m.hints == old(m.hints) && m.objective == old(m.objective)
  {
    var base := AddIndicators(m, a, Num(0), false);
    ghost var log1 := m.log;
    var i: nat := 0;
    while i < |a|
      invariant i <= |a| && m.next == base + |a| + Tri(i)
      invariant m.log == RowsAfter(log1, a, base, i)
      invariant m.hints == old(m.hints) && m.objective == old(m.objective)
    {
      AddRow(m, a, base, i);
      i := i + 1;
    }
  }

  /** The pair variable of `(i, j)` is 1 exactly when both flags are. */
  predicate PairFlag(a: seq<Var>, base: nat, i: nat, j: nat, val: Valuation)
  {
    val(PairVar(a, base, i, j)) == if val(base + i) == 1 && val(base + j) == 1 then 1 else 0
  }

  /** Pair `(i, j)` is marked right and, when both entries are non-zero, they differ. */
  predicate PairMet(a: seq<Var>, base: nat, i: nat, j: nat, val: Valuation)
    requires j < i < |a|
  {
    PairFlag(a, base, i, j, val) && (val(a[i]) != 0 && val(a[j]) != 0 ==> val(a[i]) != val(a[j]))
  }

  /** The records of pair `(i, j)`, read one by one. */
  lemma {:induction false} PairRecords(a: seq<Var>, base: nat, i: nat, j: nat, val: Valuation)
    requires j < i < |a|
    ensures Satisfies(PairBlock(a, base, i, j), val) <==>
            var b := val(PairVar(a, base, i, j));
            0 <= b <= 1 &&
            (b == 1 ==> val(base + i) == 1 && val(base + j) == 1 && val(a[i]) != val(a[j])) &&
            (b == 0 ==> val(base + i) == 0 || val(base + j) == 0)
  {
    var b := PairVar(a, base, i, j);
    var r := PairBlock(a, base, i, j);
    assert AllTrue([Pos(b)], val) <==> val(b) == 1 by {
      assert [Pos(b)][0] == Pos(b);
    }
    assert AllTrue([Neg(b)], val) <==> val(b) == 0 by {
      assert [Neg(b)][0] == Neg(b);
    }
    assert AllTrue([Pos(base + i), Pos(base + j)], val) <==> val(base + i) == 1 && val(base + j) == 1 by {
      assert [Pos(base + i), Pos(base + j)][0] == Pos(base + i);
      assert [Pos(base + i), Pos(base + j)][1] == Pos(base + j);
    }
    assert AnyTrue([Neg(base + i), Neg(base + j)], val) <==> val(base + i) == 0 || val(base + j) == 0 by {
      assert [Neg(base + i), Neg(base + j)][0] == Neg(base + i);
      assert [Neg(base + i), Neg(base + j)][1] == Neg(base + j);
    }
    assert Satisfies(r, val) <==> Holds(r[0], val) && Holds(r[1], val) && Holds(r[2], val) && Holds(r[3], val);
  }

  /** On correct flags, a pair's records hold exactly when the pair is met. */
  lemma {:induction false} PairMeaning(a: seq<Var>, base: nat, i: nat, j: nat, val: Valuation)
    requires j < i < |a|
    requires Reified(a, Num(0), false, base, i, val) && Reified(a, Num(0), false, base, j, val)
    ensures Satisfies(PairBlock(a, base, i, j), val) <==> PairMet(a, base, i, j, val)
  {
    PairRecords(a, base, i, j, val);
  }

  /** The first `k` pairs of row `i` are met, as a recursive conjunction. */
  predicate RowUpTo(a: seq<Var>, base: nat, i: nat, k: nat, val: Valuation)
    requires k <= i < |a|
  {
    k == 0 || (RowUpTo(a, base, i, k - 1, val) && PairMet(a, base, i, k - 1, val))
  }

  /** The rows before row `i` are met. */
  predicate RowsUpTo(a: seq<Var>, base: nat, i: nat, val: Valuation)
    requires i <= |a|
  {
    i == 0 || (RowsUpTo(a, base, i - 1, val) && RowUpTo(a, base, i - 1, i - 1, val))
  }

  lemma {:induction false} RowAfterMeaning(log0: seq<Record>, a: seq<Var>, base: nat, i: nat, k: nat, val: Valuation)
    requires k <= i < |a| && AllReified(a, Num(0), false, base, val)
    ensures Satisfies(RowAfter(log0, a, base, i, k), val) <==> Satisfies(log0, val) && RowUpTo(a, base, i, k, val)
  {
    if k > 0 {
      RowAfterMeaning(log0, a, base, i, k - 1, val);
      SatisfiesConcat(RowAfter(log0, a, base, i, k - 1), PairBlock(a, base, i, k - 1), val);
      assert Reified(a, Num(0), false, base, i, val) && Reified(a, Num(0), false, base, k - 1, val);
      PairMeaning(a, base, i, k - 1, val);
    }
  }

  lemma {:induction false} RowsAfterMeaning(log0: seq<Record>, a: seq<Var>, base: nat, i: nat, val: Valuation)
    requires i <= |a| && AllReified(a, Num(0), false, base, val)
    ensures Satisfies(RowsAfter(log0, a, base, i), val) <==> Satisfies(log0, val) && RowsUpTo(a, base, i, val)
  {
    if i > 0 {
      RowsAfterMeaning(log0, a, base, i - 1, val);
      RowAfterMeaning(RowsAfter(log0, a, base, i - 1), a, base, i - 1, i - 1, val);
    }
  }

  /** The pair records only add to the log before them. */
  lemma {:induction false} RowsAfterPrefix(log0: seq<Record>, a: seq<Var>, base: nat, i: nat, val: Valuation)
    requires i <= |a| && Satisfies(RowsAfter(log0, a, base, i), val)
    ensures Satisfies(log0, val)
  {
    if i > 0 {
      var prev := RowsAfter(log0, a, base, i - 1);
      RowAfterPrefix(prev, a, base, i - 1, i - 1, val);
      RowsAfterPrefix(log0, a, base, i - 1, val);
    }
  }

  lemma {:induction false} RowAfterPrefix(log0: seq<Record>, a: seq<Var>, base: nat, i: nat, k: nat, val: Valuation)
    requires k <= i < |a| && Satisfies(RowAfter(log0, a, base, i, k), val)
    ensures Satisfies(log0, val)
  {
    if k > 0 {
      SatisfiesLeft(RowAfter(log0, a, base, i, k - 1), PairBlock(a, base, i, k - 1), val);
      RowAfterPrefix(log0, a, base, i, k - 1, val);
    }
  }

  lemma {:induction false} RowUpToAll(a: seq<Var>, base: nat, i: nat, k: nat, val: Valuation)
    requires k <= i < |a|
    ensures RowUpTo(a, base, i, k, val) <==> forall j :: 0 <= j < k ==> PairMet(a, base, i, j, val)
  {
    if k > 0 {
      RowUpToAll(a, base, i, k - 1, val);
    }
  }

  lemma {:induction false} RowsUpToAll(a: seq<Var>, base: nat, n: nat, val: Valuation)
    requires n <= |a|
    ensures RowsUpTo(a, base, n, val) <==> forall i, j :: 0 <= j < i < n ==> PairMet(a, base, i, j, val)
  {
    if n > 0 {
      RowsUpToAll(a, base, n - 1, val);
      RowUpToAll(a, base, n - 1, n - 1, val);
    }
  }

  /** Any two non-zero entries differ; zeros may repeat. */
  predicate DistinctNonZero(a: seq<Var>, val: Valuation)
  {
    forall i, j :: 0 <= i < |a| && 0 <= j < |a| && i != j && val(a[i]) != 0 && val(a[j]) != 0 ==> val(a[i]) != val(a[j])
  }

  /** Every pair variable is the conjunction of its two flags. */
  predicate PairsFlagged(a: seq<Var>, base: nat, val: Valuation)
  {
    forall i, j :: 0 <= j < i < |a| ==> PairFlag(a, base, i, j, val)
  }

  lemma {:induction false} PairsMetAll(a: seq<Var>, base: nat, val: Valuation)
    ensures (forall i, j :: 0 <= j < i < |a| ==> PairMet(a, base, i, j, val)) <==>
            PairsFlagged(a, base, val) && DistinctNonZero(a, val)
  {
    if forall i, j :: 0 <= j < i < |a| ==> PairMet(a, base, i, j, val) {
      forall i, j | 0 <= i < |a| && 0 <= j < |a| && i != j && val(a[i]) != 0 && val(a[j]) != 0
        ensures val(a[i]) != val(a[j])
      {
        if j < i {
          assert PairMet(a, base, i, j, val);
        } else {
          assert PairMet(a, base, j, i, val);
        }
      }
      forall i, j | 0 <= j < i < |a|
        ensures PairFlag(a, base, i, j, val)
      {
        assert PairMet(a, base, i, j, val);
      }
    }
    if PairsFlagged(a, base, val) && DistinctNonZero(a, val) {
      forall i, j | 0 <= j < i < |a|
        ensures PairMet(a, base, i, j, val)
      {
        assert PairFlag(a, base, i, j, val);
      }
    }
  }

  /**
   * `all_different_except_0`'s records hold exactly when any two non-zero
   * entries of `a` differ, the flags mark the non-zero entries and each
   * pair variable is the conjunction of its two flags.
   */
  lemma {:induction false} DistinctMeaning(log0: seq<Record>, a: seq<Var>, base: nat, val: Valuation)
    ensures Satisfies(DistinctLog(log0, a, base), val) <==>
            Satisfies(log0, val) && AllReified(a, Num(0), false, base, val) &&
            PairsFlagged(a, base, val) && DistinctNonZero(a, val)
  {
    var inds := IndicatorsLog(log0, a, Num(0), false, base);
    IndicatorsMeaning(log0, a, Num(0), false, base, val);
    RowsUpToAll(a, base, |a|, val);
    PairsMetAll(a, base, val);
    if Satisfies(DistinctLog(log0, a, base), val) {
      RowsAfterPrefix(inds, a, base, |a|, val);
      RowsAfterMeaning(inds, a, base, |a|, val);
    }
    if Satisfies(log0, val) && AllReified(a, Num(0), false, base, val) {
      RowsAfterMeaning(inds, a, base, |a|, val);
    }
  }

  // ---------------------------------------------------------------------------
  // scalar_product
  // ---------------------------------------------------------------------------

  /** `log0` followed by `n` integer variables over `[lo, hi]`, numbered from `base`. */
  function IntVarsAfter(log0: seq<Record>, lo: int, hi: int, base: nat, n: nat): seq<Record>
  {
    if n == 0 then log0 else IntVarsAfter(log0, lo, hi, base, n - 1) + [IntVar(base + n - 1, lo, hi)]
  }

  /** `log0` followed by `t[i] == x[i] * y[i]` for `i < k`, the terms `t` numbered from `base`. */
  function ProductsAfter(log0: seq<Record>, x: seq<Var>, y: seq<Var>, base: nat, k: nat): seq<Record>
    requires k <= |x| && k <= |y|
  {
    if k == 0 then log0
    else ProductsAfter(log0, x, y, base, k - 1) + [MulEquality(Value(base + k - 1), Value(x[k - 1]), Value(y[k - 1]))]
  }

  /** The error of `scalar_product`: a domain that is not two bounds, then `y` shorter than `x`. */
  function ScalarError(x: seq<Var>, y: seq<Var>, s: PlusVar): Option<HakankError>
  {
    if |s.domain| != 2 then Some(NotTwoBounds)
    else if |y| < |x| then Some(MissingEntry)
    else None
  }

  /** The terms `t`, one per entry of `x`, over the bounds of `s`. */
  function TermsLog(log0: seq<Record>, x: seq<Var>, s: PlusVar, base: nat): seq<Record>
    requires |s.domain| == 2
  {
    IntVarsAfter(log0, s.domain[0], s.domain[1], base, |x|)
  }

  /** The log after `scalar_product` with terms from `base`: the terms, their products and `s == sum(t)`. */
  function ScalarLog(log0: seq<Record>, x: seq<Var>, y: seq<Var>, s: PlusVar, base: nat): seq<Record>
    requires |s.domain| == 2 && |x| <= |y|
  {
    ProductsAfter(TermsLog(log0, x, s, base), x, y, base, |x|) + [Linear([], Value(s.v), Eq, VarSum(base, |x|))]
  }

  /**
   * `scalar_product`: fails, leaving the model unchanged, when `s`'s
   * domain is not two bounds; fails after declaring the terms and the
   * products that exist when `y` is shorter than `x`; otherwise ties `s`
   * to the sum of the terms.
   */
  method ScalarProduct(m: Model, x: seq<Var>, y: seq<Var>, s: PlusVar) returns (r: Option<HakankError>)
    modifies m
    ensures r == ScalarError(x, y, s)
    ensures r == Some(NotTwoBounds) ==> m.log == old(m.log) && m.next == old(m.next)
    ensures r != Some(NotTwoBounds) ==> m.next == old(m.next) + |x|
    ensures r == Some(MissingEntry) ==>
              m.log == ProductsAfter(TermsLog(old(m.log), x, s, old(m.next)), x, y, old(m.next), |y|)
    ensures r.None? ==> m.log == ScalarLog(old(m.log), x, y, s, old(m.next))
    ensures m.hints == old(m.hints) && m.objective == old(m.objective)
  {
    if |s.domain| != 2 {
      return Some(NotTwoBounds);
    }
    var lo, hi := s.domain[0], s.domain[1];
    var base := m.next;
    var n := |x|;
    var k: nat := 0;
    while k < n
      invariant k <= n && m.next == base + k
      invariant m.log == IntVarsAfter(old(m.log), lo, hi, base, k)
      invariant m.hints == old(m.hints) && m.objective == old(m.objective)
    {
      var t := m.NewIntVar(lo, hi);
      k := k + 1;
    }
    ghost var log1 := m.log;
    k := 0;
    while k < n
      invariant k <= n && k <= |y| && m.next == base + n
      invariant m.log == ProductsAfter(log1, x, y, base, k)
      invariant m.hints == old(m.hints) && m.objective == old(m.objective)
    {
      if k == |y| {
        return Some(MissingEntry);
      }
      m.Add(MulEquality(Value(base + k), Value(x[k]), Value(y[k])));
      k := k + 1;
    }
    m.Add(Linear([], Value(s.v), Eq, VarSum(base, n)));
    return None;
  }

  /** `sum(x[i] * y[i] for i in range(len(x)))`. */
  function Dot(x: seq<Var>, y: seq<Var>, val: Valuation): int
    requires |x| <= |y|
  {
    if x == [] then 0 else Dot(x[..|x| - 1], y, val) + val(x[|x| - 1]) * val(y[|x| - 1])
  }

  /** Term `i` holds the product `x[i] * y[i]`. */
  predicate ProductMet(x: seq<Var>, y: seq<Var>, base: nat, i: nat, val: Valuation)
    requires i < |x| && i < |y|
  {
    val(base + i) == val(x[i]) * val(y[i])
  }

  lemma {:induction false} IntVarsAfterMeaning(log0: seq<Record>, lo: int, hi: int, base: nat, n: nat, val: Valuation)
    ensures Satisfies(IntVarsAfter(log0, lo, hi, base, n), val) <==>
            Satisfies(log0, val) && forall w :: base <= w < base + n ==> lo <= val(w) <= hi
  {
    if n > 0 {
      IntVarsAfterMeaning(log0, lo, hi, base, n - 1, val);
      CpModelPlus.SatisfiesSnoc(IntVarsAfter(log0, lo, hi, base, n - 1), IntVar(base + n - 1, lo, hi), val);
    }
  }

  lemma {:induction false} ProductsAfterMeaning(log0: seq<Record>, x: seq<Var>, y: seq<Var>, base: nat, k: nat, val: Valuation)
    requires k <= |x| && k <= |y|
    ensures Satisfies(ProductsAfter(log0, x, y, base, k), val) <==>
            Satisfies(log0, val) && forall i :: 0 <= i < k ==> ProductMet(x, y, base, i, val)
  {
    if k > 0 {
      ProductsAfterMeaning(log0, x, y, base, k - 1, val);
      var r := MulEquality(Value(base + k - 1), Value(x[k - 1]), Value(y[k - 1]));
      CpModelPlus.SatisfiesSnoc(ProductsAfter(log0, x, y, base, k - 1), r, val);
      assert Holds(r, val) <==> ProductMet(x, y, base, k - 1, val);
    }
  }

  /** Terms holding the products sum to the scalar product. */
  lemma {:induction false} TermsTotal(x: seq<Var>, y: seq<Var>, base: nat, n: nat, val: Valuation)
    requires n <= |x| <= |y|
    requires forall i :: 0 <= i < n ==> ProductMet(x, y, base, i, val)
    ensures Eval(VarSum(base, n), val) == Dot(x[..n], y, val)
  {
    if n > 0 {
      TermsTotal(x, y, base, n - 1, val);
      assert x[..n][..n - 1] == x[..n - 1];
      assert ProductMet(x, y, base, n - 1, val);
    }
  }

  /**
   * `scalar_product`'s records hold exactly when `s` equals the scalar
   * product of `x` and `y`, each term holds its product and every product
   * lies within the bounds of `s`.
   */
  lemma {:induction false} ScalarMeaning(log0: seq<Record>, x: seq<Var>, y: seq<Var>, s: PlusVar, base: nat, val: Valuation)
    requires |s.domain| == 2 && |x| <= |y|
    ensures Satisfies(ScalarLog(log0, x, y, s, base), val) <==>
            Satisfies(log0, val) &&
            (forall i :: 0 <= i < |x| ==> ProductMet(x, y, base, i, val) && s.domain[0] <= val(x[i]) * val(y[i]) <= s.domain[1]) &&
            val(s.v) == Dot(x, y, val)
  {
    var n := |x|;
    var terms := TermsLog(log0, x, s, base);
    var prods := ProductsAfter(terms, x, y, base, n);
    CpModelPlus.SatisfiesSnoc(prods, Linear([], Value(s.v), Eq, VarSum(base, n)), val);
    ProductsAfterMeaning(terms, x, y, base, n, val);
    IntVarsAfterMeaning(log0, s.domain[0], s.domain[1], base, n, val);
    assert x[..n] == x;
    if Satisfies(ScalarLog(log0, x, y, s, base), val) {
      TermsTotal(x, y, base, n, val);
      forall i | 0 <= i < n
        ensures s.domain[0] <= val(x[i]) * val(y[i]) <= s.domain[1]
      {
        assert ProductMet(x, y, base, i, val);
        assert base <= base + i < base + n;
      }
    }
    if Satisfies(log0, val) &&
       (forall i :: 0 <= i < n ==> ProductMet(x, y, base, i, val) && s.domain[0] <= val(x[i]) * val(y[i]) <= s.domain[1]) &&
       val(s.v) == Dot(x, y, val) {
      TermsTotal(x, y, base, n, val);
      forall w | base <= w < base + n
        ensures s.domain[0] <= val(w) <= s.domain[1]
      {
        assert ProductMet(x, y, base, w - base, val);
      }
    }
  }

  // ---------------------------------------------------------------------------
  // global_cardinality
  // ---------------------------------------------------------------------------

  /** `k * w`, spelled out so that the numbering of repeated blocks stays linear. */
  function Offset(k: nat, w: nat): nat
  {
    if k == 0 then 0 else Offset(k - 1, w) + w
  }

  /** The count of `domain[i]`, with count variable `c`, and `gcc[i] == c`. */
  function GccStep(log0: seq<Record>, xs: seq<Var>, domain: seq<int>, gcc: seq<Var>, c: Var, i: nat): seq<Record>
    requires i < |domain| == |gcc|
  {
    CountLog(log0, xs, Num(domain[i]), c) + [Linear([], Value(gcc[i]), Eq, Value(c))]
  }

  /** `log0` followed by the first `n` counts; each count takes `|xs| + 1` variables from `base`. */
  function GccAfter(log0: seq<Record>, xs: seq<Var>, domain: seq<int>, gcc: seq<Var>, base: nat, n: nat): seq<Record>
    requires n <= |domain| == |gcc|
  {
    if n == 0 then log0
    else GccStep(GccAfter(log0, xs, domain, gcc, base, n - 1), xs, domain, gcc, base + Offset(n - 1, |xs| + 1), n - 1)
  }

  /** One iteration of `global_cardinality`'s loop. */
  method AddGccStep(m: Model, xs: seq<Var>, domain: seq<int>, gcc: seq<Var>, i: nat)
    requires i < |domain| == |gcc|
    modifies m
    ensures m.next == old(m.next) + |xs| + 1
    ensures m.log == GccStep(old(m.log), xs, domain, gcc, old(m.next), i)
    ensures m.hints == old(m.hints) && m.objective == old(m.objective)
  {
    var c := NewCountVar(m, xs, Num(domain[i]));
    m.Add(Linear([], Value(gcc[i]), Eq, Value(c)));
  }

  /**
   * `global_cardinality`: fails, leaving the model unchanged, when `gcc` and
   * `domain` differ in length; otherwise counts each value of `domain`.
   */
  method GlobalCardinality(m: Model, xs: seq<Var>, domain: seq<int>, gcc: seq<Var>) returns (r: Option<HakankError>)
    modifies m
    ensures r.Some? <==> |gcc| != |domain|
    ensures r.Some? ==> r.value == LengthMismatch && m.log == old(m.log) && m.next == old(m.next)
    ensures r.None? ==> m.next == old(m.next) + Offset(|domain|, |xs| + 1)
    ensures r.None? ==> m.log == GccAfter(old(m.log), xs, domain, gcc, old(m.next), |domain|)
    ensures m.hints == old(m.hints) && m.objective == old(m.objective)
  {
    if |gcc| != |domain| {
      return Some(LengthMismatch);
    }
    var base := m.next;
    var k: nat := 0;
    while k < |domain|
      invariant k <= |domain| && m.next == base + Offset(k, |xs| + 1)
      invariant m.log == GccAfter(old(m.log), xs, domain, gcc, base, k)
      invariant m.hints == old(m.hints) && m.objective == old(m.objective)
    {
      AddGccStep(m, xs, domain, gcc, k);
      assert Offset(k + 1, |xs| + 1) == Offset(k, |xs| + 1) + |xs| + 1;
      k := k + 1;
    }
    return None;
  }

  /** The `i`-th count is right and `gcc[i]` holds it. */
  predicate GccMet(xs: seq<Var>, domain: seq<int>, gcc: seq<Var>, base: nat, i: nat, val: Valuation)
    requires i < |domain| == |gcc|
  {
    Counted(xs, Num(domain[i]), base + Offset(i, |xs| + 1), val) && val(gcc[i]) == Occurrences(xs, domain[i], val)
  }

  /** One count of `global_cardinality`: its records hold when the count is right and `gcc[i]` holds it. */
  lemma {:induction false} GccStepMeaning(prev: seq<Record>, xs: seq<Var>, domain: seq<int>, gcc: seq<Var>, base: nat, i: nat, val: Valuation)
    requires i < |domain| == |gcc|
    ensures Satisfies(GccStep(prev, xs, domain, gcc, base + Offset(i, |xs| + 1), i), val) <==>
            Satisfies(prev, val) && GccMet(xs, domain, gcc, base, i, val)
  {
    var c := base + Offset(i, |xs| + 1);
    CountMeaning(prev, xs, Num(domain[i]), c, val);
    CpModelPlus.SatisfiesSnoc(CountLog(prev, xs, Num(domain[i]), c), Linear([], Value(gcc[i]), Eq, Value(c)), val);
  }

  /** The first `n` counts are right, as a recursive conjunction. */
  predicate GccUpTo(xs: seq<Var>, domain: seq<int>, gcc: seq<Var>, base: nat, n: nat, val: Valuation)
    requires n <= |domain| == |gcc|
  {
    n == 0 || (GccUpTo(xs, domain, gcc, base, n - 1, val) && GccMet(xs, domain, gcc, base, n - 1, val))
  }

  /** Satisfied counts are right. */
  lemma {:induction false} GccAfterSound(log0: seq<Record>, xs: seq<Var>, domain: seq<int>, gcc: seq<Var>, base: nat, n: nat, val: Valuation)
    requires n <= |domain| == |gcc|
    requires Satisfies(GccAfter(log0, xs, domain, gcc, base, n), val)
    ensures Satisfies(log0, val) && GccUpTo(xs, domain, gcc, base, n, val)
  {
    if n > 0 {
      var prev := GccAfter(log0, xs, domain, gcc, base, n - 1);
      assert GccAfter(log0, xs, domain, gcc, base, n) == GccStep(prev, xs, domain, gcc, base + Offset(n - 1, |xs| + 1), n - 1);
      GccStepMeaning(prev, xs, domain, gcc, base, n - 1, val);
      GccAfterSound(log0, xs, domain, gcc, base, n - 1, val);
    }
  }

  /** Right counts satisfy the records. */
  lemma {:induction false} GccAfterComplete(log0: seq<Record>, xs: seq<Var>, domain: seq<int>, gcc: seq<Var>, base: nat, n: nat, val: Valuation)
    requires n <= |domain| == |gcc|
    requires Satisfies(log0, val) && GccUpTo(xs, domain, gcc, base, n, val)
    ensures Satisfies(GccAfter(log0, xs, domain, gcc, base, n), val)
  {
    if n > 0 {
      var prev := GccAfter(log0, xs, domain, gcc, base, n - 1);
      assert GccAfter(log0, xs, domain, gcc, base, n) == GccStep(prev, xs, domain, gcc, base + Offset(n - 1, |xs| + 1), n - 1);
      GccAfterComplete(log0, xs, domain, gcc, base, n - 1, val);
      GccStepMeaning(prev, xs, domain, gcc, base, n - 1, val);
    }
  }

  lemma {:induction false} GccUpToAll(xs: seq<Var>, domain: seq<int>, gcc: seq<Var>, base: nat, n: nat, val: Valuation)
    requires n <= |domain| == |gcc|
    ensures GccUpTo(xs, domain, gcc, base, n, val) <==> forall i :: 0 <= i < n ==> GccMet(xs, domain, gcc, base, i, val)
  {
    if n > 0 {
      GccUpToAll(xs, domain, gcc, base, n - 1, val);
    }
  }

  /**
   * `global_cardinality`'s records hold exactly when every `gcc[i]` is the
   * number of entries of `xs` equal to `domain[i]` (with its count right).
   */
  lemma {:induction false} GccMeaning(log0: seq<Record>, xs: seq<Var>, domain: seq<int>, gcc: seq<Var>, base: nat, val: Valuation)
    requires |domain| == |gcc|
    ensures Satisfies(GccAfter(log0, xs, domain, gcc, base, |domain|), val) <==>
            Satisfies(log0, val) && forall i :: 0 <= i < |domain| ==> GccMet(xs, domain, gcc, base, i, val)
  {
    GccUpToAll(xs, domain, gcc, base, |domain|, val);
    if Satisfies(GccAfter(log0, xs, domain, gcc, base, |domain|), val) {
      GccAfterSound(log0, xs, domain, gcc, base, |domain|, val);
    }
    if Satisfies(log0, val) && GccUpTo(xs, domain, gcc, base, |domain|, val) {
      GccAfterComplete(log0, xs, domain, gcc, base, |domain|, val);
    }
  }
}
