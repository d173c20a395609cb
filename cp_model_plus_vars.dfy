/**
 * The variable-creating methods of `cpmodel/CpModelPlus.py`: the product of
 * two variables, the maximum and minimum of expressions, step functions and
 * convex piecewise-linear functions. Each method declares the new variable
 * in the `CpLog` model and appends the records that tie it to its
 * arguments; lemmas state what a valuation satisfying those records means.
 */
module CpModelPlusVars {
  import opened Wrappers
  import opened CpLog
  import CpModelPlus
  import OrToolsUtils

  // ---------------------------------------------------------------------------
  // new_product_var
  // ---------------------------------------------------------------------------

  /**
   * An integer variable of the proto with its domain, the flat list
   * `[lo1, hi1, lo2, hi2, ...]` of the bounds of its intervals.
   */
  datatype PlusVar = PlusVar(v: Var, domain: seq<int>)

  /** A proto domain: a non-empty, even-length list of non-decreasing bounds. */
  predicate WellFormed(d: seq<int>)
  {
    |d| >= 2 && |d| % 2 == 0 && forall i, j :: 0 <= i < j < |d| ==> d[i] <= d[j]
  }

  /** `Domain.from_flat_intervals(d)`: the values the flat domain allows. */
  function FlatValues(d: seq<int>): set<int>
    decreases |d|
  {
    if |d| < 2 then {} else OrToolsUtils.Span(d[0], d[1]) + FlatValues(d[2..])
  }

  /** A value of a well-formed domain lies between its first and its last bound. */
  lemma {:induction false} FlatBounds(d: seq<int>, x: int)
    requires WellFormed(d) && x in FlatValues(d)
    ensures d[0] <= x <= d[|d| - 1]
  {
    if !(d[0] <= x <= d[1]) {
      var rest := d[2..];
      assert x in FlatValues(rest);
      assert |rest| >= 2;
      assert WellFormed(rest) by {
        forall i, j | 0 <= i < j < |rest|
          ensures rest[i] <= rest[j]
        {
          assert rest[i] == d[i + 2] && rest[j] == d[j + 2];
        }
      }
      FlatBounds(rest, x);
      assert rest[0] == d[2] && rest[|rest| - 1] == d[|d| - 1];
    }
  }

  /** `list(var.proto.domain) == [0, 1]`. */
  predicate IsBoolVar(x: PlusVar)
  {
    x.domain == [0, 1]
  }

  /** Two integer variables: neither is Boolean. */
  predicate IntTimesInt(x: PlusVar, y: PlusVar)
  {
    !IsBoolVar(x) && !IsBoolVar(y)
  }

  /** The four products of the domains' first and last bounds. */
  function Corners(x: PlusVar, y: PlusVar): seq<int>
    requires x.domain != [] && y.domain != []
  {
    var (min1, max1) := (x.domain[0], x.domain[|x.domain| - 1]);
    var (min2, max2) := (y.domain[0], y.domain[|y.domain| - 1]);
    [min1 * min2, min1 * max2, max1 * min2, max1 * max2]
  }

  /** `max(min(corners), -MAX_VALUE)`. */
  function ProductLow(x: PlusVar, y: PlusVar): int
    requires x.domain != [] && y.domain != []
  {
    var cs := Corners(x, y);
    if Min(cs) > -CpModelPlus.MaxValue then Min(cs) else -CpModelPlus.MaxValue
  }

  /** `min(max(corners), MAX_VALUE)`. */
  function ProductHigh(x: PlusVar, y: PlusVar): int
    requires x.domain != [] && y.domain != []
  {
    var cs := Corners(x, y);
    if Max(cs) < CpModelPlus.MaxValue then Max(cs) else CpModelPlus.MaxValue
  }

  /** `new_product_var` reads the first bound of an empty domain of an integer factor. */
  function ProductError(x: PlusVar, y: PlusVar): Option<CpModelPlus.PlusError>
  {
    if IntTimesInt(x, y) && (x.domain == [] || y.domain == []) then Some(CpModelPlus.EmptyIndex) else None
  }

  /**
   * The records of `new_product_var` for the product variable `p`: two
   * Booleans get a Boolean conjunction, two integers a multiplication
   * equality within the clamped corner bounds, and a Boolean and an integer
   * a variable that is the integer when the Boolean holds and 0 otherwise.
   */
  function ProductRecords(x: PlusVar, y: PlusVar, p: Var): seq<Record>
    requires ProductError(x, y).None?
  {
    if IsBoolVar(x) && IsBoolVar(y) then
      [BoolVar(p), BoolOr([], [Neg(x.v), Neg(y.v), Pos(p)]), Implication(Pos(p), Pos(x.v)), Implication(Pos(p), Pos(y.v))]
    else if IntTimesInt(x, y) then
      [IntVar(p, ProductLow(x, y), ProductHigh(x, y)), MulEquality(Value(p), Value(x.v), Value(y.v))]
    else
      var (i, b) := if IsBoolVar(x) then (y, x) else (x, y);
      [DomainVar(p, FlatValues(i.domain) + {0}), Linear([Pos(b.v)], Value(p), Eq, Value(i.v)), Linear([Neg(b.v)], Value(p), Eq, Num(0))]
  }

  /**
   * `new_product_var`: fails, leaving the model unchanged, when an integer
   * factor has an empty domain; otherwise declares the product variable.
   */
  method NewProductVar(m: Model, x: PlusVar, y: PlusVar) returns (r: Result<Var, CpModelPlus.PlusError>)
    modifies m
    ensures r.Err? <==> ProductError(x, y).Some?
    ensures r.Err? ==> r.error == ProductError(x, y).value && m.log == old(m.log) && m.next == old(m.next)
    ensures r.Ok? ==> r.value == old(m.next) && m.next == old(m.next) + 1
    ensures r.Ok? ==> m.log == old(m.log) + ProductRecords(x, y, r.value)
    ensures m.hints == old(m.hints) && m.objective == old(m.objective)
  {
    ghost var log0 := m.log;
    if IsBoolVar(x) && IsBoolVar(y) {
      var p := m.NewBoolVar();
      m.Add(BoolOr([], [Neg(x.v), Neg(y.v), Pos(p)]));
      m.Add(Implication(Pos(p), Pos(x.v)));
      m.Add(Implication(Pos(p), Pos(y.v)));
      assert m.log == log0 + ProductRecords(x, y, p);
      return Ok(p);
    }
    if IntTimesInt(x, y) {
      if x.domain == [] || y.domain == [] {
        return Err(CpModelPlus.EmptyIndex);
      }
      var cs := Corners(x, y);
      var lo := if Min(cs) > -CpModelPlus.MaxValue then Min(cs) else -CpModelPlus.MaxValue;
      var hi := if Max(cs) < CpModelPlus.MaxValue then Max(cs) else CpModelPlus.MaxValue;
      var p := m.NewIntVar(lo, hi);
      assert lo == ProductLow(x, y) && hi == ProductHigh(x, y);
      m.Add(MulEquality(Value(p), Value(x.v), Value(y.v)));
      assert m.log == log0 + ProductRecords(x, y, p);
      return Ok(p);
    }
    var (i, b) := if IsBoolVar(x) then (y, x) else (x, y);
    var p := m.NewDomainVar(FlatValues(i.domain) + {0});
    m.Add(Linear([Pos(b.v)], Value(p), Eq, Value(i.v)));
    m.Add(Linear([Neg(b.v)], Value(p), Eq, Num(0)));
    assert m.log == log0 + ProductRecords(x, y, p);
    return Ok(p);
  }

  /** The variable's value lies in its domain. */
  predicate InDomainOf(x: PlusVar, val: Valuation)
  {
    val(x.v) in FlatValues(x.domain)
  }

  /** `x * y` lies between `a * y` and `b * y` when `x` lies between `a` and `b`. */
  lemma {:induction false} MulBetween(a: int, x: int, b: int, y: int)
    requires a <= x <= b
    ensures y >= 0 ==> a * y <= x * y <= b * y
    ensures y < 0 ==> b * y <= x * y <= a * y
  {
    if y >= 0 {
      assert (x - a) * y >= 0;
      assert (b - x) * y >= 0;
    } else {
      assert (x - a) * (-y) >= 0;
      assert (b - x) * (-y) >= 0;
    }
  }

  /** A product of values in two ranges lies between the smallest and the largest corner product. */
  lemma {:induction false} CornerBounds(a: int, b: int, c: int, d: int, x: int, y: int)
    requires a <= x <= b && c <= y <= d
    ensures Min([a * c, a * d, b * c, b * d]) <= x * y <= Max([a * c, a * d, b * c, b * d])
  {
    var cs := [a * c, a * d, b * c, b * d];
    MulBetween(a, x, b, y);
    MulBetween(c, y, d, a);
    MulBetween(c, y, d, b);
    assert a * y == y * a && b * y == y * b;
    assert c * a == a * c && d * a == a * d && c * b == b * c && d * b == b * d;
    assert Min(cs) <= cs[0] && Min(cs) <= cs[1] && Min(cs) <= cs[2] && Min(cs) <= cs[3];
    assert cs[0] <= Max(cs) && cs[1] <= Max(cs) && cs[2] <= Max(cs) && cs[3] <= Max(cs);
  }

  /** A Boolean variable takes the values 0 and 1. */
  lemma {:induction false} BoolDomain(x: PlusVar, val: Valuation)
    requires IsBoolVar(x) && InDomainOf(x, val)
    ensures 0 <= val(x.v) <= 1
  {
    assert FlatValues(x.domain[2..]) == {};
  }

  /** The product of two Boolean variables. */
  lemma {:induction false} BoolProduct(x: PlusVar, y: PlusVar, p: Var, val: Valuation)
    requires IsBoolVar(x) && IsBoolVar(y) && InDomainOf(x, val) && InDomainOf(y, val)
    ensures Satisfies(ProductRecords(x, y, p), val) <==> val(p) == val(x.v) * val(y.v)
  {
    var r := ProductRecords(x, y, p);
    BoolDomain(x, val);
    BoolDomain(y, val);
    var lits := [Neg(x.v), Neg(y.v), Pos(p)];
    assert Holds(r[1], val) <==> val(x.v) == 0 || val(y.v) == 0 || val(p) == 1 by {
      assert AnyTrue(lits, val) <==> LitTrue(lits[0], val) || LitTrue(lits[1], val) || LitTrue(lits[2], val);
    }
    assert Holds(r[0], val) <==> 0 <= val(p) <= 1;
    assert Holds(r[2], val) <==> (val(p) == 1 ==> val(x.v) == 1);
    assert Holds(r[3], val) <==> (val(p) == 1 ==> val(y.v) == 1);
    assert val(x.v) * val(y.v) == if val(x.v) == 1 && val(y.v) == 1 then 1 else 0;
    assert Satisfies(r, val) <==> Holds(r[0], val) && Holds(r[1], val) && Holds(r[2], val) && Holds(r[3], val);
  }

  /**
   * For factors within their domains, the clamped corner bounds exclude
   * exactly the products beyond plus or minus `MAX_VALUE`.
   */
  lemma {:induction false} ProductBounds(x: PlusVar, y: PlusVar, val: Valuation)
    requires WellFormed(x.domain) && WellFormed(y.domain) && InDomainOf(x, val) && InDomainOf(y, val)
    ensures ProductLow(x, y) <= val(x.v) * val(y.v) <= ProductHigh(x, y) <==>
      -CpModelPlus.MaxValue <= val(x.v) * val(y.v) <= CpModelPlus.MaxValue
  {
    var (vx, vy) := (val(x.v), val(y.v));
    FlatBounds(x.domain, vx);
    FlatBounds(y.domain, vy);
    CornerBounds(x.domain[0], x.domain[|x.domain| - 1], y.domain[0], y.domain[|y.domain| - 1], vx, vy);
  }

  /** The product of two integer variables. */
  lemma {:induction false} IntProduct(x: PlusVar, y: PlusVar, p: Var, val: Valuation)
    requires IntTimesInt(x, y) && WellFormed(x.domain) && WellFormed(y.domain)
    requires InDomainOf(x, val) && InDomainOf(y, val)
    ensures Satisfies(ProductRecords(x, y, p), val) <==>
      val(p) == val(x.v) * val(y.v) && -CpModelPlus.MaxValue <= val(p) <= CpModelPlus.MaxValue
  {
    var r := ProductRecords(x, y, p);
    ProductBounds(x, y, val);
    assert Holds(r[0], val) <==> ProductLow(x, y) <= val(p) <= ProductHigh(x, y);
    assert Holds(r[1], val) <==> val(p) == val(x.v) * val(y.v);
    assert Satisfies(r, val) <==> Holds(r[0], val) && Holds(r[1], val);
  }

  /** The product of a Boolean and an integer variable. */
  lemma {:induction false} MixedProduct(x: PlusVar, y: PlusVar, p: Var, val: Valuation)
    requires IsBoolVar(x) != IsBoolVar(y) && InDomainOf(x, val) && InDomainOf(y, val)
    ensures Satisfies(ProductRecords(x, y, p), val) <==> val(p) == val(x.v) * val(y.v)
  {
    var r := ProductRecords(x, y, p);
    var (i, b) := if IsBoolVar(x) then (y, x) else (x, y);
    BoolDomain(b, val);
    assert Holds(r[1], val) <==> (val(b.v) == 1 ==> val(p) == val(i.v)) by {
      assert [Pos(b.v)][0] == Pos(b.v);
    }
    assert Holds(r[2], val) <==> (val(b.v) == 0 ==> val(p) == 0) by {
      assert [Neg(b.v)][0] == Neg(b.v);
    }
    assert Satisfies(r, val) <==> Holds(r[0], val) && Holds(r[1], val) && Holds(r[2], val);
  }

  /**
   * On values within the factors' domains, `new_product_var`'s records hold
   * exactly when the new variable is the product; two integer factors also
   * keep the product within plus or minus `MAX_VALUE`.
   */
  lemma {:induction false} ProductMeaning(x: PlusVar, y: PlusVar, p: Var, val: Valuation)
    requires WellFormed(x.domain) && WellFormed(y.domain) && InDomainOf(x, val) && InDomainOf(y, val)
    ensures ProductError(x, y).None?
    ensures Satisfies(ProductRecords(x, y, p), val) <==>
      val(p) == val(x.v) * val(y.v) && (IntTimesInt(x, y) ==> -CpModelPlus.MaxValue <= val(p) <= CpModelPlus.MaxValue)
  {
    if IsBoolVar(x) && IsBoolVar(y) {
      BoolProduct(x, y, p, val);
    } else if IntTimesInt(x, y) {
      IntProduct(x, y, p, val);
    } else {
      MixedProduct(x, y, p, val);
    }
  }

  // ---------------------------------------------------------------------------
  // new_max_var and new_min_var
  // ---------------------------------------------------------------------------

  /** The records of `new_max_var` (`isMax`) or `new_min_var` for the new variable `v`. */
  function ExtremeRecords(v: Var, es: seq<Expr>, isMax: bool): seq<Record>
  {
    [IntVar(v, -CpModelPlus.MaxValue, CpModelPlus.MaxValue), if isMax then MaxEquality(Value(v), es) else MinEquality(Value(v), es)]
  }

  /** `new_max_var`: a variable in plus or minus `MAX_VALUE` equal to the maximum of `es`. */
  method NewMaxVar(m: Model, es: seq<Expr>) returns (v: Var)
    modifies m
    ensures v == old(m.next) && m.next == old(m.next) + 1
    ensures m.log == old(m.log) + ExtremeRecords(v, es, true)
    ensures m.hints == old(m.hints) && m.objective == old(m.objective)
  {
    ghost var log0 := m.log;
    v := m.NewIntVar(-CpModelPlus.MaxValue, CpModelPlus.MaxValue);
    m.Add(MaxEquality(Value(v), es));
    assert m.log == log0 + ExtremeRecords(v, es, true);
  }

  /** `new_min_var`: a variable in plus or minus `MAX_VALUE` equal to the minimum of `es`. */
  method NewMinVar(m: Model, es: seq<Expr>) returns (v: Var)
    modifies m
    ensures v == old(m.next) && m.next == old(m.next) + 1
    ensures m.log == old(m.log) + ExtremeRecords(v, es, false)
    ensures m.hints == old(m.hints) && m.objective == old(m.objective)
  {
    ghost var log0 := m.log;
    v := m.NewIntVar(-CpModelPlus.MaxValue, CpModelPlus.MaxValue);
    m.Add(MinEquality(Value(v), es));
    assert m.log == log0 + ExtremeRecords(v, es, false);
  }

  /** `t` is one of the values and no value exceeds it (`isMax`), or none is below it. */
  predicate IsExtreme(t: int, xs: seq<int>, isMax: bool)
  {
    (exists k :: 0 <= k < |xs| && xs[k] == t) &&
    forall k :: 0 <= k < |xs| ==> if isMax then xs[k] <= t else t <= xs[k]
  }

  /** The maximum (minimum) of a list is the value that is attained and bounds all others. */
  lemma {:induction false} ExtremeUnique(t: int, xs: seq<int>, isMax: bool)
    requires xs != []
    ensures IsExtreme(t, xs, isMax) <==> t == if isMax then Max(xs) else Min(xs)
  {
    if IsExtreme(t, xs, isMax) {
      var k :| 0 <= k < |xs| && xs[k] == t;
      var e := if isMax then Max(xs) else Min(xs);
      var j :| 0 <= j < |xs| && xs[j] == e;
      assert if isMax then xs[j] <= t && t <= e else t <= xs[j] && e <= t;
    }
  }

  /**
   * The records of `new_max_var` (`new_min_var`) hold exactly when the
   * expressions are not empty, the variable lies within plus or minus
   * `MAX_VALUE`, and it is the largest (smallest) of their values.
   */
  lemma {:induction false} ExtremeMeaning(v: Var, es: seq<Expr>, isMax: bool, val: Valuation)
    ensures Satisfies(ExtremeRecords(v, es, isMax), val) <==>
      es != [] && -CpModelPlus.MaxValue <= val(v) <= CpModelPlus.MaxValue && IsExtreme(val(v), Values(es, val), isMax)
  {
    var r := ExtremeRecords(v, es, isMax);
    assert Satisfies(r, val) <==> Holds(r[0], val) && Holds(r[1], val);
    if es != [] {
      ExtremeUnique(val(v), Values(es, val), isMax);
    }
  }

  // ---------------------------------------------------------------------------
  // new_step_var
  // ---------------------------------------------------------------------------

  /** `Domain.from_values(values)`. */
  function ValueSet(values: seq<int>): (r: set<int>)
    ensures forall t :: t in r <==> exists k :: 0 <= k < |values| && values[k] == t
  {
    set k | 0 <= k < |values| :: values[k]
  }

  /** `log0` followed by the Boolean variables `base`, ..., `base + n - 1`. */
  function BoolVarsAfter(log0: seq<Record>, base: nat, n: nat): seq<Record>
  {
    if n == 0 then log0 else BoolVarsAfter(log0, base, n - 1) + [BoolVar(base + n - 1)]
  }

  /**
   * The records of the `k`-th step: `x` in `domains[k]` and `y == values[k]`,
   * both enforced on the `k`-th selector, variable `y + 1 + k`.
   */
  function StepCase(x: Var, domains: seq<set<int>>, values: seq<int>, y: Var, k: nat): seq<Record>
    requires k < |domains| == |values|
  {
    [InDomain([Pos(y + 1 + k)], Value(x), domains[k]), Linear([Pos(y + 1 + k)], Value(y), Eq, Num(values[k]))]
  }

  /** `log0` followed by the records of the first `n` steps. */
  function StepCasesAfter(log0: seq<Record>, x: Var, domains: seq<set<int>>, values: seq<int>, y: Var, n: nat): seq<Record>
    requires n <= |domains| == |values|
  {
    if n == 0 then log0 else StepCasesAfter(log0, x, domains, values, y, n - 1) + StepCase(x, domains, values, y, n - 1)
  }

  /** The selector literals `base`, ..., `base + n - 1`. */
  function Selectors(base: nat, n: nat): (r: seq<Lit>)
    ensures |r| == n && forall k :: 0 <= k < n ==> r[k] == Pos(base + k)
  {
    seq(n, k requires 0 <= k < n => Pos(base + k))
  }

  /**
   * The log after `new_step_var` with result variable `y`: its declaration
   * over the listed values, one selector per step, the records of each step
   * and the disjunction of the selectors.
   */
  function StepLog(log0: seq<Record>, x: Var, domains: seq<set<int>>, values: seq<int>, y: Var): seq<Record>
    requires |domains| == |values|
  {
    var n := |values|;
    StepCasesAfter(BoolVarsAfter(log0 + [DomainVar(y, ValueSet(values))], y + 1, n), x, domains, values, y, n) +
    [BoolOr([], Selectors(y + 1, n))]
  }

  /** The records of one step. */
  method AddStepCase(m: Model, x: Var, domains: seq<set<int>>, values: seq<int>, y: Var, k: nat)
    requires k < |domains| == |values|
    modifies m
    ensures m.log == old(m.log) + StepCase(x, domains, values, y, k)
    ensures m.next == old(m.next) && m.hints == old(m.hints) && m.objective == old(m.objective)
  {
    ghost var log0 := m.log;
    m.Add(InDomain([Pos(y + 1 + k)], Value(x), domains[k]));
    m.Add(Linear([Pos(y + 1 + k)], Value(y), Eq, Num(values[k])));
    assert m.log == log0 + StepCase(x, domains, values, y, k);
  }

  /**
   * `new_step_var`: fails, leaving the model unchanged, when the domains
   * and values differ in length; otherwise declares the step variable,
   * numbered `old(m.next)`, and its selectors after it.
   */
  method NewStepVar(m: Model, x: Var, domains: seq<set<int>>, values: seq<int>) returns (r: Result<Var, CpModelPlus.PlusError>)
    modifies m
    ensures r.Err? <==> |domains| != |values|
    ensures r.Err? ==> r.error == CpModelPlus.LengthMismatch && m.log == old(m.log) && m.next == old(m.next)
    ensures r.Ok? ==> r.value == old(m.next) && m.next == old(m.next) + 1 + |values|
    ensures r.Ok? ==> m.log == StepLog(old(m.log), x, domains, values, r.value)
    ensures m.hints == old(m.hints) && m.objective == old(m.objective)
  {
    if |domains| != |values| {
      return Err(CpModelPlus.LengthMismatch);
    }
    var y := m.NewDomainVar(ValueSet(values));
    ghost var log1 := m.log;
    var n := |values|;
    var k: nat := 0;
    while k < n
      invariant k <= n && m.next == y + 1 + k
      invariant m.log == BoolVarsAfter(log1, y + 1, k)
      invariant m.hints == old(m.hints) && m.objective == old(m.objective)
    {
      var s := m.NewBoolVar();
      k := k + 1;
    }
    ghost var log2 := m.log;
    k := 0;
    while k < n
      invariant k <= n && m.next == y + 1 + n
      invariant m.log == StepCasesAfter(log2, x, domains, values, y, k)
      invariant m.hints == old(m.hints) && m.objective == old(m.objective)
    {
      AddStepCase(m, x, domains, values, y, k);
      k := k + 1;
    }
    m.Add(BoolOr([], Selectors(y + 1, n)));
    return Ok(y);
  }

  /** A satisfied log of steps satisfies the log before them and each step. */
  lemma {:induction false} StepCaseAt(log0: seq<Record>, x: Var, domains: seq<set<int>>, values: seq<int>, y: Var, n: nat, k: nat, val: Valuation)
    requires k < n <= |domains| == |values| && Satisfies(StepCasesAfter(log0, x, domains, values, y, n), val)
    ensures Satisfies(StepCase(x, domains, values, y, k), val)
  {
    var prev := StepCasesAfter(log0, x, domains, values, y, n - 1);
    if k < n - 1 {
      SatisfiesLeft(prev, StepCase(x, domains, values, y, n - 1), val);
      StepCaseAt(log0, x, domains, values, y, n - 1, k, val);
    } else {
      SatisfiesRight(prev, StepCase(x, domains, values, y, n - 1), val);
    }
  }

  /** A step whose selector holds puts `x` in its domain and gives `y` its value. */
  lemma {:induction false} StepCaseMeaning(x: Var, domains: seq<set<int>>, values: seq<int>, y: Var, k: nat, val: Valuation)
    requires k < |domains| == |values|
    ensures Satisfies(StepCase(x, domains, values, y, k), val) <==>
      (val(y + 1 + k) == 1 ==> val(x) in domains[k] && val(y) == values[k])
  {
    var r := StepCase(x, domains, values, y, k);
    assert AllTrue([Pos(y + 1 + k)], val) <==> val(y + 1 + k) == 1 by {
      assert [Pos(y + 1 + k)][0] == Pos(y + 1 + k);
    }
    assert Satisfies(r, val) <==> Holds(r[0], val) && Holds(r[1], val);
  }

  /**
   * Under `new_step_var`'s records, `x` lies in one of the domains and `y`
   * takes the value listed for that domain.
   */
  lemma {:induction false} StepSound(log0: seq<Record>, x: Var, domains: seq<set<int>>, values: seq<int>, y: Var, val: Valuation)
    requires |domains| == |values| && Satisfies(StepLog(log0, x, domains, values, y), val)
    ensures exists k :: 0 <= k < |values| && val(x) in domains[k] && val(y) == values[k]
  {
    var n := |values|;
    var front := BoolVarsAfter(log0 + [DomainVar(y, ValueSet(values))], y + 1, n);
    var cases := StepCasesAfter(front, x, domains, values, y, n);
    var sel := Selectors(y + 1, n);
    SatisfiesLeft(cases, [BoolOr([], sel)], val);
    SatisfiesRight(cases, [BoolOr([], sel)], val);
    assert Holds([BoolOr([], sel)][0], val);
    var k :| 0 <= k < n && LitTrue(sel[k], val);
    StepCaseAt(front, x, domains, values, y, n, k, val);
    StepCaseMeaning(x, domains, values, y, k, val);
  }

  /** The Boolean declarations hold on 0/1 values. */
  lemma {:induction false} BoolVarsHold(log0: seq<Record>, base: nat, n: nat, val: Valuation)
    requires Satisfies(log0, val) && forall v :: base <= v < base + n ==> 0 <= val(v) <= 1
    ensures Satisfies(BoolVarsAfter(log0, base, n), val)
  {
    if n > 0 {
      BoolVarsHold(log0, base, n - 1, val);
      CpModelPlus.SatisfiesSnoc(BoolVarsAfter(log0, base, n - 1), BoolVar(base + n - 1), val);
    }
  }

  /** Conversely, satisfied Boolean declarations keep the log before them and give 0/1 values. */
  lemma {:induction false} BoolVarsSound(log0: seq<Record>, base: nat, n: nat, val: Valuation)
    requires Satisfies(BoolVarsAfter(log0, base, n), val)
    ensures Satisfies(log0, val) && forall v :: base <= v < base + n ==> 0 <= val(v) <= 1
  {
    if n > 0 {
      CpModelPlus.SatisfiesSnoc(BoolVarsAfter(log0, base, n - 1), BoolVar(base + n - 1), val);
      BoolVarsSound(log0, base, n - 1, val);
    }
  }

  /** When the `j`-th selector holds, `x` lies in the `j`-th domain and `y` has the `j`-th value. */
  predicate StepMet(x: Var, domains: seq<set<int>>, values: seq<int>, y: Var, j: nat, val: Valuation)
    requires j < |domains| == |values|
  {
    val(y + 1 + j) == 1 ==> val(x) in domains[j] && val(y) == values[j]
  }

  /** The steps hold when every step whose selector holds is met. */
  lemma {:induction false} StepCasesHold(log0: seq<Record>, x: Var, domains: seq<set<int>>, values: seq<int>, y: Var, n: nat, val: Valuation)
    requires n <= |domains| == |values| && Satisfies(log0, val)
    requires forall j :: 0 <= j < n ==> StepMet(x, domains, values, y, j, val)
    ensures Satisfies(StepCasesAfter(log0, x, domains, values, y, n), val)
  {
    if n > 0 {
      StepCasesHold(log0, x, domains, values, y, n - 1, val);
      assert StepMet(x, domains, values, y, n - 1, val);
      StepCaseMeaning(x, domains, values, y, n - 1, val);
      SatisfiesConcat(StepCasesAfter(log0, x, domains, values, y, n - 1), StepCase(x, domains, values, y, n - 1), val);
    }
  }

  /**
   * Conversely, when `x` lies in the `k`-th domain, selecting step `k` alone
   * and giving `y` its value satisfies `new_step_var`'s records.
   */
  lemma {:induction false} StepComplete(log0: seq<Record>, x: Var, domains: seq<set<int>>, values: seq<int>, y: Var, val: Valuation, k: nat)
    requires k < |domains| == |values| && Satisfies(log0, val)
    requires val(x) in domains[k] && val(y) == values[k]
    requires forall v :: y < v <= y + |values| ==> val(v) == if v == y + 1 + k then 1 else 0
    ensures Satisfies(StepLog(log0, x, domains, values, y), val)
  {
    var n := |values|;
    forall j | 0 <= j < n
      ensures StepMet(x, domains, values, y, j, val)
    {
      assert val(y + 1 + j) == if j == k then 1 else 0;
    }
    var first := log0 + [DomainVar(y, ValueSet(values))];
    CpModelPlus.SatisfiesSnoc(log0, DomainVar(y, ValueSet(values)), val);
    BoolVarsHold(first, y + 1, n, val);
    var front := BoolVarsAfter(first, y + 1, n);
    StepCasesHold(front, x, domains, values, y, n, val);
    var sel := Selectors(y + 1, n);
    assert LitTrue(sel[k], val);
    CpModelPlus.SatisfiesSnoc(StepCasesAfter(front, x, domains, values, y, n), BoolOr([], sel), val);
  }

  // ---------------------------------------------------------------------------
  // new_convex_pwl_var
  // ---------------------------------------------------------------------------

  /** Each rate is at most the next one. */
  predicate NonDecreasing(rates: seq<int>)
  {
    forall i :: 0 <= i < |rates| - 1 ==> rates[i] <= rates[i + 1]
  }

  /**
   * The error of `new_convex_pwl_var`, in the order the source raises them:
   * a length mismatch, a decreasing rate, then the first rate of an empty list.
   */
  function PwlError(bps: seq<int>, rates: seq<int>): Option<CpModelPlus.PlusError>
  {
    if |bps| != |rates| then Some(CpModelPlus.LengthMismatch)
    else if !NonDecreasing(rates) then Some(CpModelPlus.NotConvex)
    else if rates == [] then Some(CpModelPlus.EmptyIndex)
    else None
  }

  /** `for rate1, rate2 in pairwise(rates): if rate1 > rate2: raise ...`. */
  method CheckConvex(rates: seq<int>) returns (ok: bool)
    ensures ok <==> NonDecreasing(rates)
  {
    var i: nat := 0;
    while i + 1 < |rates|
      invariant i <= |rates|
      invariant forall j :: 0 <= j < i && j + 1 < |rates| ==> rates[j] <= rates[j + 1]
    {
      if rates[i] > rates[i + 1] {
        return false;
      }
      i := i + 1;
    }
    return true;
  }

  /**
   * The intercepts of the first `n` segments: segment 0 passes through
   * `(bps[0], init)` and each next one meets its predecessor at its own
   * breakpoint.
   */
  function Intercepts(bps: seq<int>, rates: seq<int>, init: int, n: nat): (r: seq<int>)
    requires 1 <= n <= |rates| == |bps|
    ensures |r| == n
  {
    if n == 1 then [init - rates[0] * bps[0]]
    else
      var prev := Intercepts(bps, rates, init, n - 1);
      prev + [(rates[n - 2] - rates[n - 1]) * bps[n - 1] + prev[n - 2]]
  }

  /** The intercept loop of `new_convex_pwl_var`. */
  method ComputeIntercepts(bps: seq<int>, rates: seq<int>, init: int) returns (ics: seq<int>)
    requires 1 <= |rates| == |bps|
    ensures ics == Intercepts(bps, rates, init, |rates|)
  {
    ics := [init - rates[0] * bps[0]];
    var idx: nat := 0;
    while idx < |rates| - 1
      invariant idx <= |rates| - 1
      invariant ics == Intercepts(bps, rates, init, idx + 1)
    {
      var bp := bps[idx + 1];
      var intercept := (rates[idx] - rates[idx + 1]) * bp + ics[idx];
      ics := ics + [intercept];
      idx := idx + 1;
    }
  }

  /** The value of the `k`-th segment, `rates[k] * x + ics[k]`. */
  function Segment(rates: seq<int>, ics: seq<int>, k: nat, x: int): int
    requires k < |rates| && k < |ics|
  {
    rates[k] * x + ics[k]
  }

  /**
   * The piecewise-linear function at its breakpoints: `init` at the first,
   * and from there each piece rises by its rate times its width.
   */
  function BreakValue(bps: seq<int>, rates: seq<int>, init: int, k: nat): int
    requires k < |rates| == |bps|
  {
    if k == 0 then init else BreakValue(bps, rates, init, k - 1) + rates[k - 1] * (bps[k] - bps[k - 1])
  }

  /** An intercept does not change once later segments are added. */
  lemma {:induction false} InterceptStable(bps: seq<int>, rates: seq<int>, init: int, n: nat, k: nat)
    requires k < n <= |rates| == |bps|
    ensures Intercepts(bps, rates, init, n)[k] == Intercepts(bps, rates, init, k + 1)[k]
  {
    if n > k + 1 {
      InterceptStable(bps, rates, init, n - 1, k);
    }
  }

  /** Each intercept puts its segment through breakpoint `i` at the function's value there. */
  lemma {:induction false} InterceptFormula(bps: seq<int>, rates: seq<int>, init: int, i: nat)
    requires i < |rates| == |bps|
    ensures Intercepts(bps, rates, init, |rates|)[i] == BreakValue(bps, rates, init, i) - rates[i] * bps[i]
  {
    InterceptStable(bps, rates, init, |rates|, i);
    if i > 0 {
      var ic := Intercepts(bps, rates, init, i + 1)[i];
      var prev := Intercepts(bps, rates, init, i)[i - 1];
      InterceptStable(bps, rates, init, i, i - 1);
      InterceptStable(bps, rates, init, |rates|, i - 1);
      InterceptFormula(bps, rates, init, i - 1);
      assert ic == (rates[i - 1] - rates[i]) * bps[i] + prev;
      assert (rates[i - 1] - rates[i]) * bps[i] == rates[i - 1] * bps[i] - rates[i] * bps[i];
      assert rates[i - 1] * (bps[i] - bps[i - 1]) == rates[i - 1] * bps[i] - rates[i - 1] * bps[i - 1];
    }
  }

  /**
   * Segment `i` is the line through breakpoint `i` at the function's value
   * there, with slope `rates[i]`.
   */
  lemma {:induction false} SegmentFormula(bps: seq<int>, rates: seq<int>, init: int, i: nat, x: int)
    requires i < |rates| == |bps|
    ensures Segment(rates, Intercepts(bps, rates, init, |rates|), i, x) == BreakValue(bps, rates, init, i) + rates[i] * (x - bps[i])
  {
    InterceptFormula(bps, rates, init, i);
    assert rates[i] * (x - bps[i]) == rates[i] * x - rates[i] * bps[i];
  }

  /** Segment 0 takes the initial value at the first breakpoint. */
  lemma {:induction false} FirstSegment(bps: seq<int>, rates: seq<int>, init: int)
    requires 1 <= |rates| == |bps|
    ensures Segment(rates, Intercepts(bps, rates, init, |rates|), 0, bps[0]) == init
  {
    SegmentFormula(bps, rates, init, 0, bps[0]);
  }

  /** Consecutive segments meet at the breakpoint between them: the function is continuous. */
  lemma {:induction false} Continuity(bps: seq<int>, rates: seq<int>, init: int, k: nat)
    requires k + 1 < |rates| == |bps|
    ensures Segment(rates, Intercepts(bps, rates, init, |rates|), k, bps[k + 1]) ==
      Segment(rates, Intercepts(bps, rates, init, |rates|), k + 1, bps[k + 1])
  {
    SegmentFormula(bps, rates, init, k, bps[k + 1]);
    SegmentFormula(bps, rates, init, k + 1, bps[k + 1]);
  }

  /** The difference of consecutive segments changes sign at their breakpoint. */
  lemma {:induction false} SegmentStep(bps: seq<int>, rates: seq<int>, init: int, k: nat, x: int)
    requires k + 1 < |rates| == |bps|
    ensures Segment(rates, Intercepts(bps, rates, init, |rates|), k + 1, x) - Segment(rates, Intercepts(bps, rates, init, |rates|), k, x) ==
      (rates[k + 1] - rates[k]) * (x - bps[k + 1])
  {
    var ics := Intercepts(bps, rates, init, |rates|);
    Continuity(bps, rates, init, k);
    assert ics[k + 1] - ics[k] == (rates[k] - rates[k + 1]) * bps[k + 1] by {
      assert rates[k] * bps[k + 1] + ics[k] == rates[k + 1] * bps[k + 1] + ics[k + 1];
      assert (rates[k] - rates[k + 1]) * bps[k + 1] == rates[k] * bps[k + 1] - rates[k + 1] * bps[k + 1];
    }
    assert (rates[k + 1] - rates[k]) * (x - bps[k + 1]) == (rates[k + 1] - rates[k]) * x - (rates[k + 1] - rates[k]) * bps[k + 1];
    assert (rates[k + 1] - rates[k]) * x == rates[k + 1] * x - rates[k] * x;
  }

  /** The breakpoints are listed in non-decreasing order. */
  predicate Sorted(bps: seq<int>)
  {
    forall i, j :: 0 <= i < j < |bps| ==> bps[i] <= bps[j]
  }

  /** `x` lies on piece `i`: from breakpoint `i` (unbounded for the first) to the next (unbounded for the last). */
  predicate InPiece(bps: seq<int>, i: nat, x: int)
  {
    i < |bps| && (i == 0 || bps[i] <= x) && (i == |bps| - 1 || x <= bps[i + 1])
  }

  /** A product of two non-negative numbers is non-negative. */
  lemma MulNonNegative(a: int, b: int)
    requires a >= 0 && b >= 0
    ensures a * b >= 0
  {
  }

  /** A product of a non-negative and a non-positive number is non-positive. */
  lemma MulNonPositive(a: int, b: int)
    requires a >= 0 && b <= 0
    ensures a * b <= 0
  {
    MulNonNegative(a, -b);
  }

  /** On piece `i`, every earlier segment lies below segment `i`. */
  lemma {:induction false} EarlierBelow(bps: seq<int>, rates: seq<int>, init: int, i: nat, j: nat, x: int)
    requires |rates| == |bps| && Sorted(bps) && NonDecreasing(rates)
    requires j <= i < |rates| && (i == 0 || bps[i] <= x)
    ensures Segment(rates, Intercepts(bps, rates, init, |rates|), j, x) <= Segment(rates, Intercepts(bps, rates, init, |rates|), i, x)
    decreases i - j
  {
    if j < i {
      EarlierBelow(bps, rates, init, i, j + 1, x);
      SegmentStep(bps, rates, init, j, x);
      assert bps[j + 1] <= bps[i];
      MulNonNegative(rates[j + 1] - rates[j], x - bps[j + 1]);
    }
  }

  /** On piece `i`, every later segment lies below segment `i`. */
  lemma {:induction false} LaterBelow(bps: seq<int>, rates: seq<int>, init: int, i: nat, j: nat, x: int)
    requires |rates| == |bps| && Sorted(bps) && NonDecreasing(rates)
    requires i <= j < |rates| && (i == |bps| - 1 || x <= bps[i + 1])
    ensures Segment(rates, Intercepts(bps, rates, init, |rates|), j, x) <= Segment(rates, Intercepts(bps, rates, init, |rates|), i, x)
    decreases j - i
  {
    if i < j {
      LaterBelow(bps, rates, init, i, j - 1, x);
      SegmentStep(bps, rates, init, j - 1, x);
      assert bps[i + 1] <= bps[j];
      MulNonPositive(rates[j] - rates[j - 1], x - bps[j]);
    }
  }

  /** Convexity: on its own piece a segment is the highest of all segments. */
  lemma {:induction false} PieceMaximal(bps: seq<int>, rates: seq<int>, init: int, i: nat, j: nat, x: int)
    requires |rates| == |bps| && Sorted(bps) && NonDecreasing(rates)
    requires InPiece(bps, i, x) && j < |rates|
    ensures Segment(rates, Intercepts(bps, rates, init, |rates|), j, x) <= Segment(rates, Intercepts(bps, rates, init, |rates|), i, x)
  {
    if j <= i {
      EarlierBelow(bps, rates, init, i, j, x);
    } else {
      LaterBelow(bps, rates, init, i, j, x);
    }
  }

  /** Every value lies on some piece. */
  lemma {:induction false} PieceExists(bps: seq<int>, x: int) returns (i: nat)
    requires bps != []
    ensures InPiece(bps, i, x)
  {
    i := 0;
    while i < |bps| - 1 && bps[i + 1] <= x
      invariant i < |bps| && (i == 0 || bps[i] <= x)
    {
      i := i + 1;
    }
  }

  /** The declaration and the defining equality of segment `k`, variable `base + k`. */
  function SegmentBlock(x: Var, rates: seq<int>, ics: seq<int>, base: nat, k: nat): seq<Record>
    requires k < |rates| && k < |ics|
  {
    [IntVar(base + k, -CpModelPlus.MaxValue, CpModelPlus.MaxValue),
     Linear([], Value(base + k), Eq, Plus(Times(rates[k], Value(x)), Num(ics[k])))]
  }

  /** `log0` followed by the blocks of the first `n` segments. */
  function SegmentsAfter(log0: seq<Record>, x: Var, rates: seq<int>, ics: seq<int>, base: nat, n: nat): seq<Record>
    requires n <= |rates| && n <= |ics|
  {
    if n == 0 then log0 else SegmentsAfter(log0, x, rates, ics, base, n - 1) + SegmentBlock(x, rates, ics, base, n - 1)
  }

  /**
   * The log after `new_convex_pwl_var`: one segment variable per rate,
   * numbered from `base`, then the maximum of the segments.
   */
  function PwlLog(log0: seq<Record>, x: Var, bps: seq<int>, rates: seq<int>, init: int, base: nat): seq<Record>
    requires PwlError(bps, rates).None?
  {
    var n := |rates|;
    SegmentsAfter(log0, x, rates, Intercepts(bps, rates, init, n), base, n) + ExtremeRecords(base + n, CpModelPlus.Vars(base, n), true)
  }

  /** One segment variable and its equality. */
  method AddSegment(m: Model, x: Var, rates: seq<int>, ics: seq<int>, base: nat, k: nat) returns (s: Var)
    requires k < |rates| && k < |ics| && m.next == base + k
    modifies m
    ensures s == base + k && m.next == old(m.next) + 1
    ensures m.log == old(m.log) + SegmentBlock(x, rates, ics, base, k)
    ensures m.hints == old(m.hints) && m.objective == old(m.objective)
  {
    ghost var log0 := m.log;
    s := m.NewIntVar(-CpModelPlus.MaxValue, CpModelPlus.MaxValue);
    m.Add(Linear([], Value(s), Eq, Plus(Times(rates[k], Value(x)), Num(ics[k]))));
    assert m.log == log0 + SegmentBlock(x, rates, ics, base, k);
  }

  /**
   * `new_convex_pwl_var`: fails, leaving the model unchanged, on a length
   * mismatch, on decreasing rates or on empty lists; otherwise declares one
   * segment variable per rate and returns the variable for their maximum.
   */
  method NewConvexPwlVar(m: Model, x: Var, bps: seq<int>, rates: seq<int>, init: int) returns (r: Result<Var, CpModelPlus.PlusError>)
    modifies m
    ensures r.Err? <==> PwlError(bps, rates).Some?
    ensures r.Err? ==> r.error == PwlError(bps, rates).value && m.log == old(m.log) && m.next == old(m.next)
    ensures r.Ok? ==> r.value == old(m.next) + |rates| && m.next == old(m.next) + |rates| + 1
    ensures r.Ok? ==> m.log == PwlLog(old(m.log), x, bps, rates, init, old(m.next))
    ensures m.hints == old(m.hints) && m.objective == old(m.objective)
  {
    if |bps| != |rates| {
      return Err(CpModelPlus.LengthMismatch);
    }
    var convex := CheckConvex(rates);
    if !convex {
      return Err(CpModelPlus.NotConvex);
    }
    if |rates| == 0 {
      return Err(CpModelPlus.EmptyIndex);
    }
    var ics := ComputeIntercepts(bps, rates, init);
    ghost var log0 := m.log;
    var base := m.next;
    var segs: seq<Expr> := [];
    var k: nat := 0;
    while k < |rates|
      invariant k <= |rates| && m.next == base + k
      invariant |segs| == k && forall j :: 0 <= j < k ==> segs[j] == Value(base + j)
      invariant m.log == SegmentsAfter(log0, x, rates, ics, base, k)
      invariant m.hints == old(m.hints) && m.objective == old(m.objective)
    {
      var s := AddSegment(m, x, rates, ics, base, k);
      segs := segs + [Value(s)];
      k := k + 1;
    }
    assert segs == CpModelPlus.Vars(base, |rates|);
    var f := NewMaxVar(m, segs);
    return Ok(f);
  }

  /** Under the segment blocks each segment variable holds its segment's value. */
  lemma {:induction false} SegmentValues(log0: seq<Record>, x: Var, rates: seq<int>, ics: seq<int>, base: nat, n: nat, k: nat, val: Valuation)
    requires k < n <= |rates| && n <= |ics| && Satisfies(SegmentsAfter(log0, x, rates, ics, base, n), val)
    ensures val(base + k) == Segment(rates, ics, k, val(x))
  {
    var prev := SegmentsAfter(log0, x, rates, ics, base, n - 1);
    var block := SegmentBlock(x, rates, ics, base, n - 1);
    if k < n - 1 {
      SatisfiesLeft(prev, block, val);
      SegmentValues(log0, x, rates, ics, base, n - 1, k, val);
    } else {
      SatisfiesRight(prev, block, val);
      assert Holds(block[1], val);
      assert Eval(Times(rates[k], Value(x)), val) == rates[k] * val(x);
      assert Eval(Plus(Times(rates[k], Value(x)), Num(ics[k])), val) == rates[k] * val(x) + ics[k];
    }
  }

  /** The parts of the log of `new_convex_pwl_var`. */
  lemma {:induction false} PwlParts(log0: seq<Record>, x: Var, bps: seq<int>, rates: seq<int>, init: int, base: nat, val: Valuation)
    requires PwlError(bps, rates).None? && Satisfies(PwlLog(log0, x, bps, rates, init, base), val)
    ensures Satisfies(SegmentsAfter(log0, x, rates, Intercepts(bps, rates, init, |rates|), base, |rates|), val)
    ensures IsExtreme(val(base + |rates|), Values(CpModelPlus.Vars(base, |rates|), val), true)
  {
    var n := |rates|;
    var segs := SegmentsAfter(log0, x, rates, Intercepts(bps, rates, init, n), base, n);
    var es := CpModelPlus.Vars(base, n);
    SatisfiesLeft(segs, ExtremeRecords(base + n, es, true), val);
    SatisfiesRight(segs, ExtremeRecords(base + n, es, true), val);
    ExtremeMeaning(base + n, es, true, val);
  }

  /**
   * With sorted breakpoints, the variable of `new_convex_pwl_var` takes the
   * value of the piecewise-linear function: on piece `i` it is the value at
   * breakpoint `i` plus `rates[i]` times the distance from it.
   */
  lemma {:induction false} PwlMeaning(log0: seq<Record>, x: Var, bps: seq<int>, rates: seq<int>, init: int, base: nat, val: Valuation, i: nat)
    requires PwlError(bps, rates).None? && Sorted(bps) && InPiece(bps, i, val(x))
    requires Satisfies(PwlLog(log0, x, bps, rates, init, base), val)
    ensures val(base + |rates|) == BreakValue(bps, rates, init, i) + rates[i] * (val(x) - bps[i])
  {
    var n := |rates|;
    var ics := Intercepts(bps, rates, init, n);
    PwlParts(log0, x, bps, rates, init, base, val);
    var vs := Values(CpModelPlus.Vars(base, n), val);
    var j :| 0 <= j < n && vs[j] == val(base + n);
    SegmentValues(log0, x, rates, ics, base, n, j, val);
    SegmentValues(log0, x, rates, ics, base, n, i, val);
    assert vs[i] <= val(base + n);
    PieceMaximal(bps, rates, init, i, j, val(x));
    SegmentFormula(bps, rates, init, i, val(x));
  }
}
