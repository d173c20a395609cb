/**
 * A constraint-programming model seen as an append-only log of constraint
 * records over integer variables. Nothing here solves anything: each record
 * has a satisfaction predicate `Holds` over a valuation, and the builders of
 * both solver back ends are specified by the records they append.
 *
 * Variables are numbered in creation order. A `Lit` is a Boolean literal (a
 * variable, its negation `~v`, or a constant); inside linear expressions a
 * literal counts as 0 or 1, and `~v` is `1 - v`.
 */
module CpLog {
  import opened Wrappers

  type Var = nat
  type Valuation = Var -> int

  datatype Lit = Pos(v: Var) | Neg(v: Var) | Const(b: bool)

  predicate LitTrue(l: Lit, val: Valuation)
  {
    match l
    case Pos(v) => val(v) == 1
    case Neg(v) => val(v) == 0
    case Const(b) => b
  }

  /** `~l`. */
  function Negate(l: Lit): (r: Lit)
    ensures forall val: Valuation :: IsBool(val, l) ==> (LitTrue(r, val) <==> !LitTrue(l, val))
  {
    match l
    case Pos(v) => Neg(v)
    case Neg(v) => Pos(v)
    case Const(b) => Const(!b)
  }

  /** The variable behind a literal takes a 0/1 value. */
  predicate IsBool(val: Valuation, l: Lit)
  {
    l.Const? || 0 <= val(l.v) <= 1
  }

  predicate AllTrue(ls: seq<Lit>, val: Valuation)
  {
    forall i :: 0 <= i < |ls| ==> LitTrue(ls[i], val)
  }

  predicate AnyTrue(ls: seq<Lit>, val: Valuation)
  {
    exists i :: 0 <= i < |ls| && LitTrue(ls[i], val)
  }

  datatype Expr =
    | Num(c: int)
    | Value(v: Var)
    | Bool(l: Lit)
    | Plus(a: Expr, b: Expr)
    | Times(k: int, a: Expr)
    | MaxOf(a: Expr, b: Expr)
    /** 1 when `a > b`, else 0. */
    | Greater(a: Expr, b: Expr)
    /** `a` when the literal holds, else 0. */
    | Guard(g: Lit, a: Expr)

  function Eval(e: Expr, val: Valuation): int
  {
    match e
    case Num(c) => c
    case Value(v) => val(v)
    case Bool(l) =>
      (match l
       case Pos(v) => val(v)
       case Neg(v) => 1 - val(v)
       case Const(b) => if b then 1 else 0)
    case Plus(a, b) => Eval(a, val) + Eval(b, val)
    case Times(k, a) => k * Eval(a, val)
    case MaxOf(a, b) => if Eval(a, val) >= Eval(b, val) then Eval(a, val) else Eval(b, val)
    case Greater(a, b) => if Eval(a, val) > Eval(b, val) then 1 else 0
    case Guard(g, a) => if LitTrue(g, val) then Eval(a, val) else 0
  }

  /** On a 0/1 variable a literal is 1 exactly when it holds. */
  lemma {:induction false} BoolValue(l: Lit, val: Valuation)
    requires IsBool(val, l)
    ensures Eval(Bool(l), val) == if LitTrue(l, val) then 1 else 0
  {
  }

  function Minus(a: Expr, b: Expr): (r: Expr)
    ensures forall val :: Eval(r, val) == Eval(a, val) - Eval(b, val)
  {
    Plus(a, Times(-1, b))
  }

  /** `sum(es)`, built left to right from 0. */
  function Sum(es: seq<Expr>): Expr
  {
    if es == [] then Num(0) else Plus(Sum(es[..|es| - 1]), es[|es| - 1])
  }

  /** The sum of the values of a list of expressions. */
  function Total(es: seq<Expr>, val: Valuation): int
  {
    if es == [] then 0 else Total(es[..|es| - 1], val) + Eval(es[|es| - 1], val)
  }

  lemma {:induction false} EvalSum(es: seq<Expr>, val: Valuation)
    ensures Eval(Sum(es), val) == Total(es, val)
  {
    if es != [] {
      EvalSum(es[..|es| - 1], val);
    }
  }

  /** `LinearExpr.weighted_sum(es, ws)`. */
  function WeightedSum(es: seq<Expr>, ws: seq<int>): (r: Expr)
    requires |es| == |ws|
    ensures forall val :: Eval(r, val) == WeightedTotal(es, ws, val)
  {
    if es == [] then Num(0)
    else Plus(WeightedSum(es[..|es| - 1], ws[..|ws| - 1]), Times(ws[|ws| - 1], es[|es| - 1]))
  }

  function WeightedTotal(es: seq<Expr>, ws: seq<int>, val: Valuation): int
    requires |es| == |ws|
  {
    if es == [] then 0
    else WeightedTotal(es[..|es| - 1], ws[..|ws| - 1], val) + ws[|ws| - 1] * Eval(es[|es| - 1], val)
  }

  function Bools(ls: seq<Lit>): (r: seq<Expr>)
    ensures |r| == |ls| && forall i :: 0 <= i < |ls| ==> r[i] == Bool(ls[i])
  {
    seq(|ls|, i requires 0 <= i < |ls| => Bool(ls[i]))
  }

  /** The number of literals that hold. */
  function CountTrue(ls: seq<Lit>, val: Valuation): (n: nat)
    ensures n <= |ls|
  {
    if ls == [] then 0
    else CountTrue(ls[..|ls| - 1], val) + (if LitTrue(ls[|ls| - 1], val) then 1 else 0)
  }

  predicate AllBool(ls: seq<Lit>, val: Valuation)
  {
    forall i :: 0 <= i < |ls| ==> IsBool(val, ls[i])
  }

  /** On 0/1 variables, the sum of literals counts the literals that hold. */
  lemma {:induction false} SumOfLiterals(ls: seq<Lit>, val: Valuation)
    requires AllBool(ls, val)
    ensures Eval(Sum(Bools(ls)), val) == CountTrue(ls, val)
  {
    if ls != [] {
      var init := ls[..|ls| - 1];
      assert Bools(ls)[..|ls| - 1] == Bools(init);
      SumOfLiterals(init, val);
      BoolValue(ls[|ls| - 1], val);
    }
  }

  lemma {:induction false} CountTrueZero(ls: seq<Lit>, val: Valuation)
    ensures CountTrue(ls, val) == 0 <==> !AnyTrue(ls, val)
  {
    if ls != [] {
      var init := ls[..|ls| - 1];
      CountTrueZero(init, val);
      if AnyTrue(init, val) {
        var i :| 0 <= i < |init| && LitTrue(init[i], val);
        assert LitTrue(ls[i], val);
      }
      if AnyTrue(ls, val) && !LitTrue(ls[|ls| - 1], val) {
        var i :| 0 <= i < |ls| && LitTrue(ls[i], val);
        assert LitTrue(init[i], val);
      }
    }
  }

  /** Exactly one literal holds: a count of one is a unique true literal. */
  lemma {:induction false} CountTrueOne(ls: seq<Lit>, val: Valuation)
    ensures CountTrue(ls, val) == 1 <==>
            exists i :: 0 <= i < |ls| && LitTrue(ls[i], val) &&
                        forall j :: 0 <= j < |ls| && j != i ==> !LitTrue(ls[j], val)
  {
    if CountTrue(ls, val) == 1 {
      CountOneWitness(ls, val);
    }
    if exists i :: 0 <= i < |ls| && LitTrue(ls[i], val) &&
                   forall j :: 0 <= j < |ls| && j != i ==> !LitTrue(ls[j], val) {
      var i :| 0 <= i < |ls| && LitTrue(ls[i], val) &&
               forall j :: 0 <= j < |ls| && j != i ==> !LitTrue(ls[j], val);
      WitnessCountOne(ls, val, i);
    }
  }

  /** A count of one has a witness that is the only true literal. */
  lemma {:induction false} CountOneWitness(ls: seq<Lit>, val: Valuation)
    requires CountTrue(ls, val) == 1
    ensures exists i :: 0 <= i < |ls| && LitTrue(ls[i], val) &&
                        forall j :: 0 <= j < |ls| && j != i ==> !LitTrue(ls[j], val)
  {
    var init := ls[..|ls| - 1];
    var n := |ls| - 1;
    if LitTrue(ls[n], val) {
      CountTrueZero(init, val);
      forall j | 0 <= j < |ls| && j != n
        ensures !LitTrue(ls[j], val)
      {
        assert ls[j] == init[j];
      }
    } else {
      CountOneWitness(init, val);
      var i :| 0 <= i < |init| && LitTrue(init[i], val) &&
               forall j :: 0 <= j < |init| && j != i ==> !LitTrue(init[j], val);
      forall j | 0 <= j < |ls| && j != i
        ensures !LitTrue(ls[j], val)
      {
        if j < n {
          assert ls[j] == init[j];
        }
      }
      assert LitTrue(ls[i], val);
    }
  }

  /** The only true literal makes the count one. */
  lemma {:induction false} WitnessCountOne(ls: seq<Lit>, val: Valuation, i: nat)
    requires i < |ls| && LitTrue(ls[i], val)
    requires forall j :: 0 <= j < |ls| && j != i ==> !LitTrue(ls[j], val)
    ensures CountTrue(ls, val) == 1
  {
    var init := ls[..|ls| - 1];
    var n := |ls| - 1;
    if i == n {
      forall k | 0 <= k < |init|
        ensures !LitTrue(init[k], val)
      {
        assert init[k] == ls[k];
      }
      CountTrueZero(init, val);
    } else {
      forall j | 0 <= j < |init| && j != i
        ensures !LitTrue(init[j], val)
      {
        assert init[j] == ls[j];
      }
      assert LitTrue(init[i], val);
      WitnessCountOne(init, val, i);
    }
  }


  function Values(es: seq<Expr>, val: Valuation): (r: seq<int>)
    ensures |r| == |es| && forall i :: 0 <= i < |es| ==> r[i] == Eval(es[i], val)
  {
    seq(|es|, i requires 0 <= i < |es| => Eval(es[i], val))
  }

  function Min(s: seq<int>): (m: int)
    requires s != []
    ensures (exists i :: 0 <= i < |s| && s[i] == m) && forall i :: 0 <= i < |s| ==> m <= s[i]
  {
    if |s| == 1 then s[0]
    else
      var m := Min(s[..|s| - 1]);
      assert forall i :: 0 <= i < |s| - 1 ==> s[..|s| - 1][i] == s[i];
      if s[|s| - 1] < m then s[|s| - 1] else m
  }

  function Max(s: seq<int>): (m: int)
    requires s != []
    ensures (exists i :: 0 <= i < |s| && s[i] == m) && forall i :: 0 <= i < |s| ==> s[i] <= m
  {
    if |s| == 1 then s[0]
    else
      var m := Max(s[..|s| - 1]);
      assert forall i :: 0 <= i < |s| - 1 ==> s[..|s| - 1][i] == s[i];
      if s[|s| - 1] > m then s[|s| - 1] else m
  }

  datatype Cmp = Eq | Ne | Le | Lt

  predicate Compare(cmp: Cmp, a: int, b: int)
  {
    match cmp
    case Eq => a == b
    case Ne => a != b
    case Le => a <= b
    case Lt => a < b
  }

  /** An interval: start, size and end expressions and a presence literal. */
  datatype Interval = Interval(start: Expr, size: Expr, end: Expr, presence: Lit)

  predicate Present(iv: Interval, val: Valuation)
  {
    LitTrue(iv.presence, val)
  }

  /** The summed demand of the present intervals that run at time `t`. */
  function Load(ivs: seq<Interval>, demands: seq<Expr>, t: int, val: Valuation): int
    requires |ivs| == |demands|
  {
    if ivs == [] then 0
    else
      var n := |ivs| - 1;
      var iv := ivs[n];
      Load(ivs[..n], demands[..n], t, val) +
      (if Present(iv, val) && Eval(iv.start, val) <= t < Eval(iv.end, val) then Eval(demands[n], val) else 0)
  }

  /**
   * The constraint records. Variables are declared by records too, so that a
   * valuation satisfying the log respects every declared domain.
   */
  datatype Record =
    | IntVar(v: Var, lb: int, ub: int)
    | DomainVar(v: Var, values: set<int>)
    | BoolVar(v: Var)
    | ConstVar(v: Var, c: int)
    /** `add(lhs cmp rhs).only_enforce_if(enforce)`. */
    | Linear(enforce: seq<Lit>, lhs: Expr, cmp: Cmp, rhs: Expr)
    /** `add_linear_expression_in_domain(e, values).only_enforce_if(enforce)`. */
    | InDomain(enforce: seq<Lit>, e: Expr, values: set<int>)
    | MinEquality(target: Expr, args: seq<Expr>)
    | MaxEquality(target: Expr, args: seq<Expr>)
    | MulEquality(target: Expr, a: Expr, b: Expr)
    | BoolOr(enforce: seq<Lit>, lits: seq<Lit>)
    | BoolAnd(enforce: seq<Lit>, lits: seq<Lit>)
    | Implication(premise: Lit, conclusion: Lit)
    /** An interval variable: when present, start + size = end. */
    | IntervalVar(iv: Interval)
    | NoOverlap(ivs: seq<Interval>)
    | Cumulative(ivs: seq<Interval>, demands: seq<Expr>, capacity: Expr)
    /** A circuit over arcs (tail, head, literal); see `Holds`. */
    | Circuit(arcs: seq<(int, int, Lit)>)

  ghost predicate Holds(r: Record, val: Valuation)
  {
    match r
    case IntVar(v, lb, ub) => lb <= val(v) <= ub
    case DomainVar(v, values) => val(v) in values
    case BoolVar(v) => 0 <= val(v) <= 1
    case ConstVar(v, c) => val(v) == c
    case Linear(enforce, lhs, cmp, rhs) =>
      AllTrue(enforce, val) ==> Compare(cmp, Eval(lhs, val), Eval(rhs, val))
    case InDomain(enforce, e, values) => AllTrue(enforce, val) ==> Eval(e, val) in values
    case MinEquality(target, args) => args != [] && Eval(target, val) == Min(Values(args, val))
    case MaxEquality(target, args) => args != [] && Eval(target, val) == Max(Values(args, val))
    case MulEquality(target, a, b) => Eval(target, val) == Eval(a, val) * Eval(b, val)
    case BoolOr(enforce, lits) => AllTrue(enforce, val) ==> AnyTrue(lits, val)
    case BoolAnd(enforce, lits) => AllTrue(enforce, val) ==> AllTrue(lits, val)
    case Implication(a, b) => LitTrue(a, val) ==> LitTrue(b, val)
    case IntervalVar(iv) => Present(iv, val) ==> Eval(iv.start, val) + Eval(iv.size, val) == Eval(iv.end, val)
    case NoOverlap(ivs) =>
      forall i, j :: 0 <= i < |ivs| && 0 <= j < |ivs| && i != j && Present(ivs[i], val) && Present(ivs[j], val) ==>
        Eval(ivs[i].end, val) <= Eval(ivs[j].start, val) || Eval(ivs[j].end, val) <= Eval(ivs[i].start, val)
    case Cumulative(ivs, demands, capacity) =>
      |ivs| == |demands| && forall t :: Load(ivs, demands, t, val) <= Eval(capacity, val)
    // The circuit condition itself is internal to the solver and not modelled.
    case Circuit(_) => true
  }

  ghost predicate Satisfies(log: seq<Record>, val: Valuation)
  {
    forall i {:trigger Holds(log[i], val)} :: 0 <= i < |log| ==> Holds(log[i], val)
  }

  lemma {:induction false} SatisfiesConcat(a: seq<Record>, b: seq<Record>, val: Valuation)
    ensures Satisfies(a + b, val) <==> Satisfies(a, val) && Satisfies(b, val)
  {
    if Satisfies(a, val) && Satisfies(b, val) {
      forall i | 0 <= i < |a + b|
        ensures Holds((a + b)[i], val)
      {
        if i >= |a| {
          assert (a + b)[i] == b[i - |a|];
        }
      }
    }
    if Satisfies(a + b, val) {
      forall i | 0 <= i < |a|
        ensures Holds(a[i], val)
      {
        assert (a + b)[i] == a[i];
      }
      forall i | 0 <= i < |b|
        ensures Holds(b[i], val)
      {
        assert (a + b)[|a| + i] == b[i];
      }
    }
  }

  /** What a prefix holds, the longer sequence holds. */
  lemma InPrefix<T>(a: seq<T>, b: seq<T>, x: T)
    requires a <= b && x in a
    ensures x in b
  {
    var i :| 0 <= i < |a| && a[i] == x;
    assert b[i] == x;
  }

  /** Concatenation regrouped; stated once so that the builders' proofs need not search for it. */
  lemma {:induction false} AppendAssoc<T>(x: seq<T>, y: seq<T>, z: seq<T>)
    ensures x + y + z == x + (y + z)
  {
  }

  /** The concatenation of a list of record blocks. */
  function Flatten<T>(bs: seq<seq<T>>): (r: seq<T>)
  {
    if bs == [] then [] else Flatten(bs[..|bs| - 1]) + bs[|bs| - 1]
  }

  /** Appending a block appends its records. */
  lemma {:induction false} FlattenStep<T>(bs: seq<seq<T>>, b: seq<T>)
    ensures Flatten(bs + [b]) == Flatten(bs) + b
  {
    assert (bs + [b])[..|bs|] == bs;
  }

  /** Every record of every block is in the concatenation. */
  lemma {:induction false} FlattenMember<T>(bs: seq<seq<T>>, k: nat, r: T)
    requires k < |bs| && r in bs[k]
    ensures r in Flatten(bs)
  {
    var init := bs[..|bs| - 1];
    if k < |bs| - 1 {
      assert init[k] == bs[k];
      FlattenMember(init, k, r);
    }
  }

  /** An element of a flattened list comes from one of its blocks. */
  lemma {:induction false} FlattenWhich<T>(bs: seq<seq<T>>, r: T) returns (k: nat)
    requires r in Flatten(bs)
    ensures k < |bs| && r in bs[k]
  {
    var init := bs[..|bs| - 1];
    if r in Flatten(init) {
      k := FlattenWhich(init, r);
      assert init[k] == bs[k];
    } else {
      k := |bs| - 1;
    }
  }

  /** A satisfied log satisfies its first part. */
  lemma {:induction false} SatisfiesLeft(a: seq<Record>, b: seq<Record>, val: Valuation)
    requires Satisfies(a + b, val)
    ensures Satisfies(a, val)
  {
    SatisfiesConcat(a, b, val);
  }

  /** A satisfied log satisfies its last part. */
  lemma {:induction false} SatisfiesRight(a: seq<Record>, b: seq<Record>, val: Valuation)
    requires Satisfies(a + b, val)
    ensures Satisfies(b, val)
  {
    SatisfiesConcat(a, b, val);
  }

  /** A satisfied log satisfies every record it contains. */
  lemma {:induction false} SatisfiesMember(log: seq<Record>, r: Record, val: Valuation)
    requires Satisfies(log, val) && r in log
    ensures Holds(r, val)
  {
  }

  /**
   * The CP model under construction: the records added so far, the number
   * of variables created, the solution hints and the objective to minimise.
   */
  class Model {
    var log: seq<Record>
    var next: nat
    var hints: seq<(Var, int)>
    var objective: Option<Expr>

    constructor ()
      ensures log == [] && next == 0 && hints == [] && objective == None
    {
      log := [];
      next := 0;
      hints := [];
      objective := None;
    }

    method Add(r: Record)
      modifies this
      ensures log == old(log) + [r]
      ensures next == old(next) && hints == old(hints) && objective == old(objective)
    {
      log := log + [r];
    }

    /** Declares a fresh variable through `decl`, which names it. */
    method NewIntVar(lb: int, ub: int) returns (v: Var)
      modifies this
      ensures v == old(next) && next == old(next) + 1
      ensures log == old(log) + [IntVar(v, lb, ub)]
      ensures hints == old(hints) && objective == old(objective)
    {
      v := next;
      next := next + 1;
      log := log + [IntVar(v, lb, ub)];
    }

    method NewDomainVar(values: set<int>) returns (v: Var)
      modifies this
      ensures v == old(next) && next == old(next) + 1
      ensures log == old(log) + [DomainVar(v, values)]
      ensures hints == old(hints) && objective == old(objective)
    {
      v := next;
      next := next + 1;
      log := log + [DomainVar(v, values)];
    }

    method NewBoolVar() returns (v: Var)
      modifies this
      ensures v == old(next) && next == old(next) + 1
      ensures log == old(log) + [BoolVar(v)]
      ensures hints == old(hints) && objective == old(objective)
    {
      v := next;
      next := next + 1;
      log := log + [BoolVar(v)];
    }

    method NewConstant(c: int) returns (v: Var)
      modifies this
      ensures v == old(next) && next == old(next) + 1
      ensures log == old(log) + [ConstVar(v, c)]
      ensures hints == old(hints) && objective == old(objective)
    {
      v := next;
      next := next + 1;
      log := log + [ConstVar(v, c)];
    }

    method ClearHints()
      modifies this
      ensures hints == [] && log == old(log) && next == old(next) && objective == old(objective)
    {
      hints := [];
    }

    method AddHint(v: Var, x: int)
      modifies this
      ensures hints == old(hints) + [(v, x)] && log == old(log) && next == old(next) && objective == old(objective)
    {
      hints := hints + [(v, x)];
    }

    method ClearObjective()
      modifies this
      ensures objective == None && log == old(log) && next == old(next) && hints == old(hints)
    {
      objective := None;
    }

    method Minimize(e: Expr)
      modifies this
      ensures objective == Some(e) && log == old(log) && next == old(next) && hints == old(hints)
    {
      objective := Some(e);
    }
  }
}
