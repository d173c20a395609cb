/**
 * `cpmodel/CpModelPlus.py`: an OR-Tools CP model extended with the
 * scheduling constraints of CP Optimizer (timing relations between
 * intervals, span, alternative, synchronize) and with variables for
 * products, step functions and convex piecewise-linear functions. The model
 * is the append-only record log of `CpLog`; each method is specified by the
 * records it appends and the variables it creates, and lemmas state what a
 * valuation satisfying those records means.
 */
module CpModelPlus {
  import opened Wrappers
  import opened CpLog
  import OrToolsUtils

  /** `MAX_VALUE` of this file: 2**53. */
  const MaxValue: int := 0x20_0000_0000_0000

  /** The exceptions of the extended model. */
  datatype PlusError =
    | MultipleLiterals  // NotImplementedError of `presence_of`
    | EmptyCandidates   // ValueError of `add_span`
    | LengthMismatch    // ValueError of `new_step_var` and `new_convex_pwl_var`
    | NotConvex         // ValueError: the rates decrease somewhere
    | EmptyIndex        // IndexError: the first element of an empty list

  /**
   * An OR-Tools interval variable: its start, size and end expressions and
   * the enforcement literals of its proto, where an entry `i >= 0` stands for
   * variable `i` and an entry `-i - 1` for its negation `~i`.
   */
  datatype PlusInterval = PlusInterval(start: Expr, size: Expr, end: Expr, enforcement: seq<int>)

  // ---------------------------------------------------------------------------
  // presence_of
  // ---------------------------------------------------------------------------

  /** The proto literal `i` holds. */
  predicate ProtoLitTrue(i: int, val: Valuation)
  {
    if i >= 0 then val(i) == 1 else val(-i - 1) == 0
  }

  /** The interval is present: each of its enforcement literals holds. */
  predicate Enforced(iv: PlusInterval, val: Valuation)
  {
    forall k :: 0 <= k < |iv.enforcement| ==> ProtoLitTrue(iv.enforcement[k], val)
  }

  /**
   * `presence_of`: the literal that holds exactly when the interval is
   * present; more than one enforcement literal is not supported.
   */
  function PresenceOf(iv: PlusInterval): (r: Result<Lit, PlusError>)
    ensures r.Err? <==> |iv.enforcement| > 1
    ensures r.Err? ==> r.error == MultipleLiterals
    ensures r.Ok? ==> forall val :: LitTrue(r.value, val) <==> Enforced(iv, val)
  {
    if |iv.enforcement| == 0 then Ok(Const(true))
    else if |iv.enforcement| > 1 then Err(MultipleLiterals)
    else if iv.enforcement[0] >= 0 then Ok(Pos(iv.enforcement[0]))
    else Ok(Neg(-iv.enforcement[0] - 1))
  }

  /** `presence_of` applied to each interval in turn; the first failure is reported. */
  function Presences(ivs: seq<PlusInterval>): (r: Result<seq<Lit>, PlusError>)
    ensures r.Ok? <==> forall k :: 0 <= k < |ivs| ==> |ivs[k].enforcement| <= 1
    ensures r.Err? ==> r.error == MultipleLiterals
    ensures r.Ok? ==> |r.value| == |ivs| && forall k :: 0 <= k < |ivs| ==> PresenceOf(ivs[k]) == Ok(r.value[k])
  {
    if ivs == [] then Ok([])
    else
      var init := ivs[..|ivs| - 1];
      match Presences(init)
      case Err(e) => Err(e)
      case Ok(ps) =>
        match PresenceOf(ivs[|ivs| - 1])
        case Err(e) => assert !(|ivs[|ivs| - 1].enforcement| <= 1); Err(e)
        case Ok(p) =>
          assert forall k :: 0 <= k < |init| ==> init[k] == ivs[k];
          Ok(ps + [p])
  }

  /** The blocks `f(0)`, ..., `f(n - 1)`, one after the other. */
  function Blocks(f: nat -> seq<Record>, n: nat): seq<Record>
  {
    if n == 0 then [] else Blocks(f, n - 1) + f(n - 1)
  }

  /** A satisfied list of blocks satisfies each block. */
  lemma {:induction false} BlocksAt(f: nat -> seq<Record>, n: nat, k: nat, val: Valuation)
    requires k < n && Satisfies(Blocks(f, n), val)
    ensures Satisfies(f(k), val)
  {
    if k < n - 1 {
      SatisfiesLeft(Blocks(f, n - 1), f(n - 1), val);
      BlocksAt(f, n - 1, k, val);
    } else {
      SatisfiesRight(Blocks(f, n - 1), f(n - 1), val);
    }
  }

  /** A log extended by one record holds when the log and the record do. */
  lemma {:induction false} SatisfiesSnoc(log: seq<Record>, r: Record, val: Valuation)
    ensures Satisfies(log + [r], val) <==> Satisfies(log, val) && Holds(r, val)
  {
    SatisfiesConcat(log, [r], val);
    assert Holds([r][0], val) <==> Holds(r, val);
  }

  /** A log preceded by one record holds when the record and the log do. */
  lemma {:induction false} SatisfiesCons(r: Record, log: seq<Record>, val: Valuation)
    ensures Satisfies([r] + log, val) <==> Holds(r, val) && Satisfies(log, val)
  {
    SatisfiesConcat([r], log, val);
    assert Holds([r][0], val) <==> Holds(r, val);
  }

  /** At most one enforcement literal: `presence_of` succeeds. */
  predicate Presentable(iv: PlusInterval)
  {
    |iv.enforcement| <= 1
  }

  // ---------------------------------------------------------------------------
  // The eight timing constraints
  // ---------------------------------------------------------------------------

  datatype Point = StartOf | EndOf

  function PointOf(iv: PlusInterval, p: Point): Expr
  {
    if p == StartOf then iv.start else iv.end
  }

  /**
   * One of `add_{start,end}_{at,before}_{start,end}`: the point of the first
   * interval, whether the delay is exact (`at`) or a minimum (`before`), and
   * the point of the second interval.
   */
  datatype Timing = Timing(from: Point, exact: bool, to: Point)

  /** `add(point(first) + delay {==,<=} point(second)).only_enforce_if(both_present)`. */
  function TimingRecord(t: Timing, first: PlusInterval, second: PlusInterval, delay: int): Record
    requires Presentable(first) && Presentable(second)
  {
    Linear([PresenceOf(first).value, PresenceOf(second).value],
           Plus(PointOf(first, t.from), Num(delay)), if t.exact then Eq else Le, PointOf(second, t.to))
  }

  /**
   * The eight timing methods. Both presences are taken before anything is
   * added, so a failing `presence_of` leaves the model unchanged.
   */
  method AddTiming(m: Model, t: Timing, first: PlusInterval, second: PlusInterval, delay: int) returns (r: Option<PlusError>)
    modifies m
    ensures r.Some? <==> !Presentable(first) || !Presentable(second)
    ensures r.Some? ==> r.value == MultipleLiterals && m.log == old(m.log)
    ensures r.None? ==> m.log == old(m.log) + [TimingRecord(t, first, second, delay)]
    ensures m.next == old(m.next) && m.hints == old(m.hints) && m.objective == old(m.objective)
  {
    var p1 := PresenceOf(first);
    if p1.Err? {
      return Some(p1.error);
    }
    var p2 := PresenceOf(second);
    if p2.Err? {
      return Some(p2.error);
    }
    m.Add(Linear([p1.value, p2.value], Plus(PointOf(first, t.from), Num(delay)), if t.exact then Eq else Le, PointOf(second, t.to)));
    return None;
  }

  /**
   * A timing record holds exactly when, if both intervals are present, the
   * second point lies at (or not before) the first point plus the delay.
   */
  lemma {:induction false} TimingMeaning(t: Timing, first: PlusInterval, second: PlusInterval, delay: int, val: Valuation)
    requires Presentable(first) && Presentable(second)
    ensures Holds(TimingRecord(t, first, second, delay), val) <==>
      (Enforced(first, val) && Enforced(second, val) ==>
        var a := Eval(PointOf(first, t.from), val) + delay;
        var b := Eval(PointOf(second, t.to), val);
        if t.exact then a == b else a <= b)
  {
    var ps := [PresenceOf(first).value, PresenceOf(second).value];
    assert LitTrue(ps[0], val) <==> Enforced(first, val);
    assert LitTrue(ps[1], val) <==> Enforced(second, val);
    assert AllTrue(ps, val) <==> LitTrue(ps[0], val) && LitTrue(ps[1], val);
    var a := Eval(PointOf(first, t.from), val) + delay;
    var b := Eval(PointOf(second, t.to), val);
    assert TimingRecord(t, first, second, delay).enforce == ps;
    assert Eval(TimingRecord(t, first, second, delay).lhs, val) == a;
    assert Holds(TimingRecord(t, first, second, delay), val) <==> (AllTrue(ps, val) ==> Compare(if t.exact then Eq else Le, a, b));
  }

  // ---------------------------------------------------------------------------
  // add_all_equal
  // ---------------------------------------------------------------------------

  /** `var1 == var2` for the first `n` expressions' consecutive pairs. */
  function EqualPairs(es: seq<Expr>, n: nat): seq<Record>
    requires n < 2 || n <= |es|
  {
    if n < 2 then [] else EqualPairs(es, n - 1) + [Linear([], es[n - 2], Eq, es[n - 1])]
  }

  /** `add_all_equal`: one equality per consecutive pair. */
  method AddAllEqual(m: Model, es: seq<Expr>)
    modifies m
    ensures m.log == old(m.log) + EqualPairs(es, |es|)
    ensures m.next == old(m.next) && m.hints == old(m.hints) && m.objective == old(m.objective)
  {
    ghost var log0 := m.log;
    var k := 1;
    while k < |es|
      invariant 1 <= k && (k == 1 || k <= |es|)
      invariant m.log == log0 + EqualPairs(es, k)
      invariant m.next == old(m.next) && m.hints == old(m.hints) && m.objective == old(m.objective)
    {
      m.Add(Linear([], es[k - 1], Eq, es[k]));
      AppendAssoc(log0, EqualPairs(es, k), [Linear([], es[k - 1], Eq, es[k])]);
      k := k + 1;
    }
  }

  /** The pairwise equalities hold exactly when every expression has the value of the first. */
  lemma {:induction false} AllEqualMeaning(es: seq<Expr>, n: nat, val: Valuation)
    requires n <= |es|
    ensures Satisfies(EqualPairs(es, n), val) <==> forall k :: 0 <= k < n ==> Eval(es[k], val) == Eval(es[0], val)
  {
    if n >= 2 {
      var last := Linear([], es[n - 2], Eq, es[n - 1]);
      AllEqualMeaning(es, n - 1, val);
      SatisfiesSnoc(EqualPairs(es, n - 1), last, val);
    }
  }

  // ---------------------------------------------------------------------------
  // add_if_then_else and new_conditional_var
  // ---------------------------------------------------------------------------

  /** A bounded linear expression `lhs cmp rhs`. */
  datatype Rel = Rel(lhs: Expr, cmp: Cmp, rhs: Expr)

  predicate RelHolds(c: Rel, val: Valuation)
  {
    Compare(c.cmp, Eval(c.lhs, val), Eval(c.rhs, val))
  }

  /** `add(c).only_enforce_if(enforce)`. */
  function Enforce(c: Rel, enforce: seq<Lit>): Record
  {
    Linear(enforce, c.lhs, c.cmp, c.rhs)
  }

  /** The else records of the first `n` condition literals: `else` enforced by `~cond[k]`. */
  function ElseRecords(cond: seq<Lit>, e: Rel, n: nat): seq<Record>
    requires n <= |cond|
  {
    if n == 0 then [] else ElseRecords(cond, e, n - 1) + [Enforce(e, [Negate(cond[n - 1])])]
  }

  function IfThenElseRecords(cond: seq<Lit>, t: Rel, e: Rel): seq<Record>
  {
    [Enforce(t, cond)] + ElseRecords(cond, e, |cond|)
  }

  /** `add_if_then_else`: `then` under all the conditions, `else` under the negation of each. */
  method AddIfThenElse(m: Model, cond: seq<Lit>, t: Rel, e: Rel)
    modifies m
    ensures m.log == old(m.log) + IfThenElseRecords(cond, t, e)
    ensures m.next == old(m.next) && m.hints == old(m.hints) && m.objective == old(m.objective)
  {
    m.Add(Enforce(t, cond));
    ghost var log0 := m.log;
    var k := 0;
    while k < |cond|
      invariant k <= |cond|
      invariant m.log == log0 + ElseRecords(cond, e, k)
      invariant m.next == old(m.next) && m.hints == old(m.hints) && m.objective == old(m.objective)
    {
      m.Add(Enforce(e, [Negate(cond[k])]));
      AppendAssoc(log0, ElseRecords(cond, e, k), [Enforce(e, [Negate(cond[k])])]);
      k := k + 1;
    }
    AppendAssoc(old(m.log), [Enforce(t, cond)], ElseRecords(cond, e, |cond|));
  }

  /** The else records hold exactly when `else` holds as soon as one of the literals fails. */
  lemma {:induction false} ElseMeaning(cond: seq<Lit>, e: Rel, n: nat, val: Valuation)
    requires n <= |cond| && AllBool(cond, val)
    ensures Satisfies(ElseRecords(cond, e, n), val) <==> ((exists k :: 0 <= k < n && !LitTrue(cond[k], val)) ==> RelHolds(e, val))
  {
    if n > 0 {
      var last := Enforce(e, [Negate(cond[n - 1])]);
      ElseMeaning(cond, e, n - 1, val);
      SatisfiesSnoc(ElseRecords(cond, e, n - 1), last, val);
      var c := cond[n - 1];
      assert IsBool(val, c);
      assert LitTrue(Negate(c), val) <==> !LitTrue(c, val);
      assert [Negate(c)][0] == Negate(c);
      assert AllTrue([Negate(c)], val) <==> !LitTrue(c, val);
    }
  }

  /** On 0/1 conditions, the records hold exactly when `then` holds if all conditions do and `else` otherwise. */
  lemma {:induction false} IfThenElseMeaning(cond: seq<Lit>, t: Rel, e: Rel, val: Valuation)
    requires AllBool(cond, val)
    ensures Satisfies(IfThenElseRecords(cond, t, e), val) <==>
      (AllTrue(cond, val) ==> RelHolds(t, val)) && (!AllTrue(cond, val) ==> RelHolds(e, val))
  {
    ElseMeaning(cond, e, |cond|, val);
    SatisfiesCons(Enforce(t, cond), ElseRecords(cond, e, |cond|), val);
  }

  /** The records of `new_conditional_var(x, *cond, absent_value=absent)` for the new variable `y`. */
  function ConditionalRecords(y: Var, x: Expr, cond: seq<Lit>, absent: Option<int>): seq<Record>
  {
    [IntVar(y, -MaxValue, MaxValue)] +
    match absent
    case Some(a) => IfThenElseRecords(cond, Rel(Value(y), Eq, x), Rel(Value(y), Eq, Num(a)))
    case None => [Enforce(Rel(Value(y), Eq, x), cond)]
  }

  /** `new_conditional_var`: a new variable in [-2**53, 2**53] tied to `x` under the conditions. */
  method NewConditionalVar(m: Model, x: Expr, cond: seq<Lit>, absent: Option<int>) returns (y: Var)
    modifies m
    ensures y == old(m.next) && m.next == old(m.next) + 1
    ensures m.log == old(m.log) + ConditionalRecords(y, x, cond, absent)
    ensures m.hints == old(m.hints) && m.objective == old(m.objective)
  {
    y := m.NewIntVar(-MaxValue, MaxValue);
    if absent.Some? {
      AddIfThenElse(m, cond, Rel(Value(y), Eq, x), Rel(Value(y), Eq, Num(absent.value)));
    } else {
      m.Add(Enforce(Rel(Value(y), Eq, x), cond));
    }
  }

  /**
   * On 0/1 conditions the records hold exactly when `y` lies in its bounds,
   * equals `x` when all conditions hold, and equals the absent value, when one
   * is given, when some condition fails.
   */
  lemma {:induction false} ConditionalMeaning(y: Var, x: Expr, cond: seq<Lit>, absent: Option<int>, val: Valuation)
    requires AllBool(cond, val)
    ensures Satisfies(ConditionalRecords(y, x, cond, absent), val) <==>
      && -MaxValue <= val(y) <= MaxValue
      && (AllTrue(cond, val) ==> val(y) == Eval(x, val))
      && (absent.Some? && !AllTrue(cond, val) ==> val(y) == absent.value)
  {
    var decl := IntVar(y, -MaxValue, MaxValue);
    match absent
    case Some(a) =>
      var rest := IfThenElseRecords(cond, Rel(Value(y), Eq, x), Rel(Value(y), Eq, Num(a)));
      SatisfiesCons(decl, rest, val);
      IfThenElseMeaning(cond, Rel(Value(y), Eq, x), Rel(Value(y), Eq, Num(a)), val);
    case None =>
      var rec := Enforce(Rel(Value(y), Eq, x), cond);
      SatisfiesCons(decl, [rec], val);
      SatisfiesCons(rec, [], val);
      assert [rec] + [] == [rec];
  }

  // ---------------------------------------------------------------------------
  // add_span
  // ---------------------------------------------------------------------------

  /** The variable behind a proto literal. */
  function ProtoVar(i: int): Var
  {
    if i >= 0 then i else -i - 1
  }

  /** The variables behind the interval's enforcement literals take 0/1 values. */
  predicate LiteralsBool(iv: PlusInterval, val: Valuation)
  {
    forall k :: 0 <= k < |iv.enforcement| ==> 0 <= val(ProtoVar(iv.enforcement[k])) <= 1
  }

  lemma {:induction false} PresenceBool(iv: PlusInterval, val: Valuation)
    requires Presentable(iv) && LiteralsBool(iv, val)
    ensures IsBool(val, PresenceOf(iv).value)
  {
  }

  lemma {:induction false} PresencesBool(ivs: seq<PlusInterval>, val: Valuation)
    requires Presences(ivs).Ok? && forall k :: 0 <= k < |ivs| ==> LiteralsBool(ivs[k], val)
    ensures AllBool(Presences(ivs).value, val)
  {
    var ps := Presences(ivs).value;
    forall k | 0 <= k < |ps|
      ensures IsBool(val, ps[k])
    {
      PresenceBool(ivs[k], val);
    }
  }

  /** `is_true` of every presence: each one is the constant true. */
  predicate AllConstTrue(ls: seq<Lit>)
  {
    forall k :: 0 <= k < |ls| ==> ls[k] == Const(true)
  }

  /** `[cand.start_expr() for cand in candidates]` or the ends. */
  function PointsOf(ivs: seq<PlusInterval>, p: Point): (r: seq<Expr>)
    ensures |r| == |ivs| && forall k :: 0 <= k < |ivs| ==> r[k] == PointOf(ivs[k], p)
  {
    seq(|ivs|, k requires 0 <= k < |ivs| => PointOf(ivs[k], p))
  }

  /** The variables `base`, ..., `base + n - 1` as expressions. */
  function Vars(base: nat, n: nat): (r: seq<Expr>)
    ensures |r| == n && forall k :: 0 <= k < n ==> r[k] == Value(base + k)
  {
    seq(n, k requires 0 <= k < n => Value(base + k))
  }

  /** The value an absent candidate's conditional variable takes: above every start, below every end. */
  function Absent(p: Point): int
  {
    if p == StartOf then MaxValue else -MaxValue
  }

  /** `add_min_equality` for starts, `add_max_equality` for ends. */
  function Aggregate(p: Point, target: Expr, args: seq<Expr>): Record
  {
    if p == StartOf then MinEquality(target, args) else MaxEquality(target, args)
  }

  /** The conditional variable of the `k`-th candidate, numbered `base + k`. */
  function CondBlock(base: nat, xs: seq<Expr>, ps: seq<Lit>, absent: int, k: nat): seq<Record>
    requires k < |xs| == |ps|
  {
    ConditionalRecords(base + k, xs[k], [ps[k]], Some(absent))
  }

  /** The conditional blocks as a function of the candidate index. */
  function CondFn(base: nat, xs: seq<Expr>, ps: seq<Lit>, absent: int): nat -> seq<Record>
  {
    (k: nat) => if k < |xs| == |ps| then CondBlock(base, xs, ps, absent, k) else []
  }

  /** The conditional variables of the first `n` candidates, one after the other. */
  function CondBlocks(base: nat, xs: seq<Expr>, ps: seq<Lit>, absent: int, n: nat): seq<Record>
  {
    Blocks(CondFn(base, xs, ps, absent), n)
  }

  /** Equal logs stay equal when the same records are appended. */
  lemma AppendEqual(a: seq<Record>, b: seq<Record>, c: seq<Record>)
    requires a == b
    ensures a + c == b + c
  {
  }

  /** `log0` followed by the first `n` conditional blocks, appended one at a time. */
  function CondBlocksAfter(log0: seq<Record>, base: nat, xs: seq<Expr>, ps: seq<Lit>, absent: int, n: nat): seq<Record>
    requires n <= |xs| == |ps|
  {
    if n == 0 then log0 else CondBlocksAfter(log0, base, xs, ps, absent, n - 1) + CondBlock(base, xs, ps, absent, n - 1)
  }

  /** Appending the blocks one at a time appends their concatenation. */
  lemma {:induction false} CondBlocksAfterAppends(log0: seq<Record>, base: nat, xs: seq<Expr>, ps: seq<Lit>, absent: int, n: nat)
    requires n <= |xs| == |ps|
    ensures CondBlocksAfter(log0, base, xs, ps, absent, n) == log0 + CondBlocks(base, xs, ps, absent, n)
  {
    if n > 0 {
      var f := CondFn(base, xs, ps, absent);
      var front, last := CondBlocks(base, xs, ps, absent, n - 1), CondBlock(base, xs, ps, absent, n - 1);
      calc {
        CondBlocksAfter(log0, base, xs, ps, absent, n);
        CondBlocksAfter(log0, base, xs, ps, absent, n - 1) + last;
        { CondBlocksAfterAppends(log0, base, xs, ps, absent, n - 1);
          AppendEqual(CondBlocksAfter(log0, base, xs, ps, absent, n - 1), log0 + front, last); }
        log0 + front + last;
        { AppendAssoc(log0, front, last); }
        log0 + (front + last);
        { assert f(n - 1) == last; }
        log0 + (Blocks(f, n - 1) + f(n - 1));
      }
    }
  }

  /**
   * One half of `add_span` from variable `base` on: the main point's
   * conditional variable, one conditional variable per candidate, and their
   * minimum (starts) or maximum (ends).
   */
  function SideRecords(mp: Lit, main: PlusInterval, cands: seq<PlusInterval>, cps: seq<Lit>, p: Point, base: nat): seq<Record>
    requires |cps| == |cands|
  {
    ConditionalRecords(base, PointOf(main, p), [mp], None)
    + CondBlocks(base + 1, PointsOf(cands, p), cps, Absent(p), |cands|)
    + [Aggregate(p, Value(base), Vars(base + 1, |cands|))]
  }

  /** The log after one half of `add_span` appended its records to `log0`. */
  function SideLog(log0: seq<Record>, mp: Lit, main: PlusInterval, cands: seq<PlusInterval>, cps: seq<Lit>, p: Point, base: nat): seq<Record>
    requires |cps| == |cands|
  {
    CondBlocksAfter(log0 + ConditionalRecords(base, PointOf(main, p), [mp], None), base + 1, PointsOf(cands, p), cps, Absent(p), |cands|)
    + [Aggregate(p, Value(base), Vars(base + 1, |cands|))]
  }

  /** The log after one half is the old log followed by that half's records. */
  lemma {:induction false} SideLogAppends(log0: seq<Record>, mp: Lit, main: PlusInterval, cands: seq<PlusInterval>, cps: seq<Lit>, p: Point, base: nat)
    requires |cps| == |cands|
    ensures SideLog(log0, mp, main, cands, cps, p, base) == log0 + SideRecords(mp, main, cands, cps, p, base)
  {
    var c := ConditionalRecords(base, PointOf(main, p), [mp], None);
    var xs := PointsOf(cands, p);
    var bs := CondBlocks(base + 1, xs, cps, Absent(p), |cands|);
    var agg := [Aggregate(p, Value(base), Vars(base + 1, |cands|))];
    CondBlocksAfterAppends(log0 + c, base + 1, xs, cps, Absent(p), |cands|);
    AppendAssoc(log0, c, bs);
    AppendAssoc(log0, c + bs, agg);
  }

  /** `main_pres <= sum(cand_pres)` and `len(candidates) * main_pres >= sum(cand_pres)`. */
  function CountRecords(mp: Lit, cps: seq<Lit>): seq<Record>
  {
    [Linear([], Bool(mp), Le, Sum(Bools(cps))), Linear([], Sum(Bools(cps)), Le, Times(|cps|, Bool(mp)))]
  }

  /** The general formulation of `add_span` from variable `base` on. */
  function GeneralRecords(mp: Lit, main: PlusInterval, cands: seq<PlusInterval>, cps: seq<Lit>, base: nat): seq<Record>
    requires |cps| == |cands|
  {
    CountRecords(mp, cps) + SideRecords(mp, main, cands, cps, StartOf, base) + SideRecords(mp, main, cands, cps, EndOf, base + |cands| + 1)
  }

  /** The exception `add_span` raises, if any. */
  function SpanError(main: PlusInterval, cands: seq<PlusInterval>): Option<PlusError>
  {
    if cands == [] then Some(EmptyCandidates)
    else if !Presentable(main) || Presences(cands).Err? then Some(MultipleLiterals)
    else None
  }

  /**
   * Every presence is the constant true: the shortcut formulation applies.
   * `add_span` asks whether each presence literal's variable has the domain
   * `[1, 1]`; here a literal counts as true only when it is `Const(true)`,
   * so a presence variable whose declared domain happens to be `[1, 1]`
   * (a `ConstVar` of value 1, say) takes the general formulation here.
   */
  predicate SpanShortcut(main: PlusInterval, cands: seq<PlusInterval>)
    requires SpanError(main, cands).None?
  {
    PresenceOf(main).value == Const(true) && AllConstTrue(Presences(cands).value)
  }

  /** The records `add_span` appends when the next free variable is `base`. */
  function SpanRecords(main: PlusInterval, cands: seq<PlusInterval>, base: nat): seq<Record>
    requires SpanError(main, cands).None?
  {
    if SpanShortcut(main, cands) then
      [MinEquality(main.start, PointsOf(cands, StartOf)), MaxEquality(main.end, PointsOf(cands, EndOf))]
    else
      GeneralRecords(PresenceOf(main).value, main, cands, Presences(cands).value, base)
  }

  /**
   * The log after `add_span` appended its records to `log0`, block by block
   * in the order it adds them.
   */
  function SpanLog(log0: seq<Record>, main: PlusInterval, cands: seq<PlusInterval>, base: nat): seq<Record>
    requires SpanError(main, cands).None?
  {
    if SpanShortcut(main, cands) then
      log0 + [MinEquality(main.start, PointsOf(cands, StartOf)), MaxEquality(main.end, PointsOf(cands, EndOf))]
    else
      var mp, cps := PresenceOf(main).value, Presences(cands).value;
      SideLog(SideLog(log0 + CountRecords(mp, cps), mp, main, cands, cps, StartOf, base), mp, main, cands, cps, EndOf, base + |cands| + 1)
  }

  /** The log after `add_span` is the old log followed by the span records. */
  lemma {:induction false} SpanLogAppends(log0: seq<Record>, main: PlusInterval, cands: seq<PlusInterval>, base: nat)
    requires SpanError(main, cands).None?
    ensures SpanLog(log0, main, cands, base) == log0 + SpanRecords(main, cands, base)
  {
    if !SpanShortcut(main, cands) {
      var mp, cps := PresenceOf(main).value, Presences(cands).value;
      var c, s, e := CountRecords(mp, cps), SideRecords(mp, main, cands, cps, StartOf, base), SideRecords(mp, main, cands, cps, EndOf, base + |cands| + 1);
      calc {
        SpanLog(log0, main, cands, base);
        SideLog(SideLog(log0 + c, mp, main, cands, cps, StartOf, base), mp, main, cands, cps, EndOf, base + |cands| + 1);
        { SideLogAppends(log0 + c, mp, main, cands, cps, StartOf, base); }
        SideLog(log0 + c + s, mp, main, cands, cps, EndOf, base + |cands| + 1);
        { SideLogAppends(log0 + c + s, mp, main, cands, cps, EndOf, base + |cands| + 1); }
        log0 + c + s + e;
        { AppendAssoc(log0, c, s); AppendAssoc(log0, c + s, e); }
        log0 + (c + s + e);
      }
    }
  }

  /** The conditional variables of one half of `add_span`. */
  method AddSide(m: Model, mp: Lit, main: PlusInterval, cands: seq<PlusInterval>, cps: seq<Lit>, p: Point)
    requires |cps| == |cands|
    modifies m
    ensures m.log == SideLog(old(m.log), mp, main, cands, cps, p, old(m.next))
    ensures m.next == old(m.next) + |cands| + 1
    ensures m.hints == old(m.hints) && m.objective == old(m.objective)
  {
    var y := NewConditionalVar(m, PointOf(main, p), [mp], None);
    ghost var log1 := m.log;
    var xs := PointsOf(cands, p);
    var k := 0;
    while k < |cands|
      invariant k <= |cands|
      invariant m.log == CondBlocksAfter(log1, y + 1, xs, cps, Absent(p), k)
      invariant m.next == y + 1 + k
      invariant m.hints == old(m.hints) && m.objective == old(m.objective)
    {
      AddCondBlock(m, y + 1, xs, cps, Absent(p), k);
      k := k + 1;
    }
    m.Add(Aggregate(p, Value(y), Vars(y + 1, |cands|)));
  }

  /** The conditional variable of the `k`-th candidate. */
  method AddCondBlock(m: Model, base: nat, xs: seq<Expr>, ps: seq<Lit>, absent: int, k: nat)
    requires k < |xs| == |ps| && m.next == base + k
    modifies m
    ensures m.log == old(m.log) + CondBlock(base, xs, ps, absent, k)
    ensures m.next == old(m.next) + 1
    ensures m.hints == old(m.hints) && m.objective == old(m.objective)
  {
    var z := NewConditionalVar(m, xs[k], [ps[k]], Some(absent));
  }

  /** The general formulation of `add_span`. */
  method AddGeneral(m: Model, mp: Lit, main: PlusInterval, cands: seq<PlusInterval>, cps: seq<Lit>)
    requires |cps| == |cands|
    modifies m
    ensures m.log == SideLog(SideLog(old(m.log) + CountRecords(mp, cps), mp, main, cands, cps, StartOf, old(m.next)), mp, main, cands, cps, EndOf, old(m.next) + |cands| + 1)
    ensures m.next == old(m.next) + 2 * |cands| + 2
    ensures m.hints == old(m.hints) && m.objective == old(m.objective)
  {
    AddCount(m, mp, cps);
    ghost var log1 := m.log;
    AddSide(m, mp, main, cands, cps, StartOf);
    ghost var log2 := m.log;
    assert log2 == SideLog(log1, mp, main, cands, cps, StartOf, old(m.next));
    ghost var n1 := m.next;
    assert n1 == old(m.next) + |cands| + 1;
    AddSide(m, mp, main, cands, cps, EndOf);
    assert m.log == SideLog(log2, mp, main, cands, cps, EndOf, n1);
  }

  /** The two records that tie the main presence to the candidates' presences. */
  method AddCount(m: Model, mp: Lit, cps: seq<Lit>)
    modifies m
    ensures m.log == old(m.log) + CountRecords(mp, cps)
    ensures m.next == old(m.next) && m.hints == old(m.hints) && m.objective == old(m.objective)
  {
    m.Add(Linear([], Bool(mp), Le, Sum(Bools(cps))));
    m.Add(Linear([], Sum(Bools(cps)), Le, Times(|cps|, Bool(mp))));
  }

  /**
   * `add_span`: the main interval spans the present candidates. The error
   * cases leave the model unchanged; otherwise the shortcut adds a minimum
   * and a maximum, and the general case creates `2n + 2` conditional
   * variables.
   */
  method AddSpan(m: Model, main: PlusInterval, cands: seq<PlusInterval>) returns (r: Option<PlusError>)
    modifies m
    ensures r == SpanError(main, cands)
    ensures r.Some? ==> m.log == old(m.log) && m.next == old(m.next)
    ensures r.None? ==> m.log == SpanLog(old(m.log), main, cands, old(m.next))
    ensures r.None? ==> m.next == old(m.next) + if SpanShortcut(main, cands) then 0 else 2 * |cands| + 2
    ensures m.hints == old(m.hints) && m.objective == old(m.objective)
  {
    if |cands| == 0 {
      return Some(EmptyCandidates);
    }
    var mp := PresenceOf(main);
    if mp.Err? {
      return Some(mp.error);
    }
    var cps := Presences(cands);
    if cps.Err? {
      return Some(cps.error);
    }
    AddSpanRecords(m, main, cands, mp.value, cps.value);
    return None;
  }

  /** What `add_span` adds once its arguments passed the checks. */
  method AddSpanRecords(m: Model, main: PlusInterval, cands: seq<PlusInterval>, mp: Lit, cps: seq<Lit>)
    requires SpanError(main, cands).None?
    requires PresenceOf(main) == Ok(mp) && Presences(cands) == Ok(cps)
    modifies m
    ensures m.log == SpanLog(old(m.log), main, cands, old(m.next))
    ensures m.next == old(m.next) + if SpanShortcut(main, cands) then 0 else 2 * |cands| + 2
    ensures m.hints == old(m.hints) && m.objective == old(m.objective)
  {
    if mp == Const(true) && AllConstTrue(cps) {
      ghost var log0 := m.log;
      m.Add(MinEquality(main.start, PointsOf(cands, StartOf)));
      m.Add(MaxEquality(main.end, PointsOf(cands, EndOf)));
      assert m.log == log0 + [MinEquality(main.start, PointsOf(cands, StartOf)), MaxEquality(main.end, PointsOf(cands, EndOf))];
    } else {
      AddGeneral(m, mp, main, cands, cps);
    }
  }

  /** What a satisfied conditional block says about the `k`-th candidate's variable. */
  lemma {:induction false} CondBlockMeaning(base: nat, xs: seq<Expr>, ps: seq<Lit>, absent: int, val: Valuation, k: nat)
    requires k < |xs| == |ps| && IsBool(val, ps[k]) && Satisfies(CondBlock(base, xs, ps, absent, k), val)
    ensures -MaxValue <= val(base + k) <= MaxValue
    ensures LitTrue(ps[k], val) ==> val(base + k) == Eval(xs[k], val)
    ensures !LitTrue(ps[k], val) ==> val(base + k) == absent
  {
    assert AllBool([ps[k]], val);
    ConditionalMeaning(base + k, xs[k], [ps[k]], Some(absent), val);
    assert AllTrue([ps[k]], val) <==> LitTrue(ps[k], val);
  }

  /** The `k`-th conditional variable of a satisfied half of a span. */
  lemma {:induction false} BlockValue(cands: seq<PlusInterval>, cps: seq<Lit>, p: Point, base: nat, val: Valuation, k: nat)
    requires k < |cps| == |cands| && IsBool(val, cps[k])
    requires Satisfies(CondBlocks(base, PointsOf(cands, p), cps, Absent(p), |cands|), val)
    ensures var y := Values(Vars(base, |cands|), val)[k];
      && -MaxValue <= y <= MaxValue
      && (LitTrue(cps[k], val) ==> y == Eval(PointOf(cands[k], p), val))
      && (!LitTrue(cps[k], val) ==> y == Absent(p))
  {
    var xs := PointsOf(cands, p);
    BlocksAt(CondFn(base, xs, cps, Absent(p)), |cands|, k, val);
    CondBlockMeaning(base, xs, cps, Absent(p), val, k);
    assert Vars(base, |cands|)[k] == Value(base + k);
  }

  /** `a` is at or before `b` for starts, at or after it for ends. */
  predicate Outer(p: Point, a: int, b: int)
  {
    if p == StartOf then a <= b else a >= b
  }

  /** What a satisfied half of a span says when the main literal holds. */
  lemma {:induction false} SideFacts(mp: Lit, main: PlusInterval, cands: seq<PlusInterval>, cps: seq<Lit>, p: Point, base: nat, val: Valuation)
    requires |cps| == |cands| && LitTrue(mp, val)
    requires Satisfies(SideRecords(mp, main, cands, cps, p, base), val)
    ensures val(base) == Eval(PointOf(main, p), val)
    ensures Satisfies(CondBlocks(base + 1, PointsOf(cands, p), cps, Absent(p), |cands|), val)
    ensures Holds(Aggregate(p, Value(base), Vars(base + 1, |cands|)), val)
  {
    var c := ConditionalRecords(base, PointOf(main, p), [mp], None);
    var bs := CondBlocks(base + 1, PointsOf(cands, p), cps, Absent(p), |cands|);
    var agg := Aggregate(p, Value(base), Vars(base + 1, |cands|));
    SatisfiesLeft(c + bs, [agg], val);
    SatisfiesRight(c + bs, [agg], val);
    assert Holds([agg][0], val);
    SatisfiesLeft(c, bs, val);
    SatisfiesRight(c, bs, val);
    assert AllBool([mp], val) && AllTrue([mp], val);
    ConditionalMeaning(base, PointOf(main, p), [mp], None, val);
  }

  /** The conditional variables of a satisfied half of a span, as values. */
  lemma {:induction false} BlockValues(cands: seq<PlusInterval>, cps: seq<Lit>, p: Point, base: nat, val: Valuation)
    requires |cps| == |cands| && AllBool(cps, val)
    requires Satisfies(CondBlocks(base, PointsOf(cands, p), cps, Absent(p), |cands|), val)
    ensures var ys := Values(Vars(base, |cands|), val);
      forall k :: 0 <= k < |cands| ==>
        && -MaxValue <= ys[k] <= MaxValue
        && (LitTrue(cps[k], val) ==> ys[k] == Eval(PointOf(cands[k], p), val))
        && (!LitTrue(cps[k], val) ==> ys[k] == Absent(p))
  {
    forall k | 0 <= k < |cands|
    {
      BlockValue(cands, cps, p, base, val, k);
    }
  }

  /** The minimum (maximum) record of a half of a span. */
  lemma {:induction false} AggregateValue(p: Point, base: nat, n: nat, val: Valuation)
    requires Holds(Aggregate(p, Value(base), Vars(base + 1, n)), val)
    ensures var ys := Values(Vars(base + 1, n), val);
      ys != [] && val(base) == if p == StartOf then Min(ys) else Max(ys)
  {
  }

  /**
   * The minimum (maximum) of values that are a present candidate's point or
   * else 2**53 (-2**53), with some candidate present and every value within
   * [-2**53, 2**53], is the first start (last end) of a present candidate.
   */
  lemma {:induction false} OuterWitness(p: Point, m: int, ys: seq<int>, cps: seq<Lit>, cands: seq<PlusInterval>, val: Valuation, j: nat)
    requires |ys| == |cps| == |cands| && j < |ys| && LitTrue(cps[j], val)
    requires forall k :: 0 <= k < |ys| ==>
           && -MaxValue <= ys[k] <= MaxValue
           && (LitTrue(cps[k], val) ==> ys[k] == Eval(PointOf(cands[k], p), val))
           && (!LitTrue(cps[k], val) ==> ys[k] == Absent(p))
    requires m == if p == StartOf then Min(ys) else Max(ys)
    ensures forall k :: 0 <= k < |cands| && LitTrue(cps[k], val) ==> Outer(p, m, Eval(PointOf(cands[k], p), val))
    ensures exists k :: 0 <= k < |cands| && LitTrue(cps[k], val) && m == Eval(PointOf(cands[k], p), val)
  {
    var i :| 0 <= i < |ys| && ys[i] == m;
    var w := if LitTrue(cps[i], val) then i else j;
    assert LitTrue(cps[w], val) && m == Eval(PointOf(cands[w], p), val);
  }

  /**
   * One satisfied half of a span whose main literal holds and where some
   * candidate literal holds: the main point is the first start (the last
   * end) of the candidates whose literal holds.
   */
  lemma {:induction false} SideMeaning(mp: Lit, main: PlusInterval, cands: seq<PlusInterval>, cps: seq<Lit>, p: Point, base: nat, val: Valuation, j: nat)
    requires |cps| == |cands| && AllBool(cps, val) && LitTrue(mp, val)
    requires j < |cps| && LitTrue(cps[j], val)
    requires Satisfies(SideRecords(mp, main, cands, cps, p, base), val)
    ensures forall k :: 0 <= k < |cands| && LitTrue(cps[k], val) ==> Outer(p, Eval(PointOf(main, p), val), Eval(PointOf(cands[k], p), val))
    ensures exists k :: 0 <= k < |cands| && LitTrue(cps[k], val) && Eval(PointOf(main, p), val) == Eval(PointOf(cands[k], p), val)
  {
    SideFacts(mp, main, cands, cps, p, base, val);
    BlockValues(cands, cps, p, base + 1, val);
    AggregateValue(p, base, |cands|, val);
    OuterWitness(p, val(base), Values(Vars(base + 1, |cands|), val), cps, cands, val, j);
  }

  /** The presence literals of `main` and the candidates take 0/1 values. */
  predicate IntervalsBool(main: PlusInterval, cands: seq<PlusInterval>, val: Valuation)
  {
    LiteralsBool(main, val) && forall k :: 0 <= k < |cands| ==> LiteralsBool(cands[k], val)
  }

  /** A candidate is present exactly when its presence literal holds. */
  lemma {:induction false} CandidatePresent(cands: seq<PlusInterval>, val: Valuation, k: nat)
    requires Presences(cands).Ok? && k < |cands|
    ensures LitTrue(Presences(cands).value[k], val) <==> Enforced(cands[k], val)
  {
    assert PresenceOf(cands[k]) == Ok(Presences(cands).value[k]);
  }

  /** The parts of the general formulation. */
  lemma {:induction false} GeneralParts(mp: Lit, main: PlusInterval, cands: seq<PlusInterval>, cps: seq<Lit>, base: nat, val: Valuation)
    requires |cps| == |cands| && Satisfies(GeneralRecords(mp, main, cands, cps, base), val)
    ensures Satisfies(CountRecords(mp, cps), val)
    ensures Satisfies(SideRecords(mp, main, cands, cps, StartOf, base), val)
    ensures Satisfies(SideRecords(mp, main, cands, cps, EndOf, base + |cands| + 1), val)
  {
    var c := CountRecords(mp, cps);
    var s := SideRecords(mp, main, cands, cps, StartOf, base);
    var e := SideRecords(mp, main, cands, cps, EndOf, base + |cands| + 1);
    SatisfiesLeft(c + s, e, val);
    SatisfiesRight(c + s, e, val);
    SatisfiesLeft(c, s, val);
    SatisfiesRight(c, s, val);
  }

  /** On 0/1 literals the two counting records hold exactly when the main literal holds iff some candidate literal does. */
  lemma {:induction false} CountMeaning(mp: Lit, cps: seq<Lit>, val: Valuation)
    requires IsBool(val, mp) && AllBool(cps, val)
    ensures Satisfies(CountRecords(mp, cps), val) <==> (LitTrue(mp, val) <==> AnyTrue(cps, val))
  {
    var c := CountRecords(mp, cps);
    assert Satisfies(c, val) <==> Holds(c[0], val) && Holds(c[1], val);
    SumOfLiterals(cps, val);
    BoolValue(mp, val);
    CountTrueZero(cps, val);
  }

  /** Under `add_span`'s records the main interval is present exactly when some candidate is. */
  lemma {:induction false} SpanPresence(main: PlusInterval, cands: seq<PlusInterval>, base: nat, val: Valuation)
    requires SpanError(main, cands).None? && IntervalsBool(main, cands, val)
    requires Satisfies(SpanRecords(main, cands, base), val)
    ensures Enforced(main, val) <==> exists k :: 0 <= k < |cands| && Enforced(cands[k], val)
  {
    var mp := PresenceOf(main).value;
    var cps := Presences(cands).value;
    forall k | 0 <= k < |cands|
      ensures LitTrue(cps[k], val) <==> Enforced(cands[k], val)
    {
      CandidatePresent(cands, val, k);
    }
    if SpanShortcut(main, cands) {
      assert LitTrue(cps[0], val);
    } else {
      GeneralParts(mp, main, cands, cps, base, val);
      PresenceBool(main, val);
      PresencesBool(cands, val);
      CountMeaning(mp, cps, val);
    }
  }

  /** The shortcut formulation: the main points are the minimum start and maximum end of all candidates. */
  lemma {:induction false} ShortcutPoints(main: PlusInterval, cands: seq<PlusInterval>, base: nat, val: Valuation, p: Point)
    requires SpanError(main, cands).None? && SpanShortcut(main, cands)
    requires Satisfies(SpanRecords(main, cands, base), val)
    ensures forall k :: 0 <= k < |cands| ==> Outer(p, Eval(PointOf(main, p), val), Eval(PointOf(cands[k], p), val))
    ensures exists k :: 0 <= k < |cands| && Eval(PointOf(main, p), val) == Eval(PointOf(cands[k], p), val)
  {
    var log := SpanRecords(main, cands, base);
    var ys := Values(PointsOf(cands, p), val);
    if p == StartOf {
      assert Holds(log[0], val);
    } else {
      assert Holds(log[1], val);
    }
    assert forall k :: 0 <= k < |cands| ==> ys[k] == Eval(PointOf(cands[k], p), val);
    assert Eval(PointOf(main, p), val) == if p == StartOf then Min(ys) else Max(ys);
  }

  /**
   * Under `add_span`'s records, when the main interval is present its start
   * is the earliest start of the present candidates and its end the latest
   * end.
   */
  lemma {:induction false} SpanPoints(main: PlusInterval, cands: seq<PlusInterval>, base: nat, val: Valuation, p: Point)
    requires SpanError(main, cands).None? && IntervalsBool(main, cands, val)
    requires Satisfies(SpanRecords(main, cands, base), val) && Enforced(main, val)
    ensures forall k :: 0 <= k < |cands| && Enforced(cands[k], val) ==> Outer(p, Eval(PointOf(main, p), val), Eval(PointOf(cands[k], p), val))
    ensures exists k :: 0 <= k < |cands| && Enforced(cands[k], val) && Eval(PointOf(main, p), val) == Eval(PointOf(cands[k], p), val)
  {
    var cps := Presences(cands).value;
    forall k | 0 <= k < |cands|
      ensures LitTrue(cps[k], val) <==> Enforced(cands[k], val)
    {
      CandidatePresent(cands, val, k);
    }
    SpanPresence(main, cands, base, val);
    if SpanShortcut(main, cands) {
      ShortcutPoints(main, cands, base, val, p);
    } else {
      var j :| 0 <= j < |cands| && Enforced(cands[j], val);
      var mp := PresenceOf(main).value;
      GeneralParts(mp, main, cands, cps, base, val);
      PresencesBool(cands, val);
      var side := if p == StartOf then base else base + |cands| + 1;
      SideMeaning(mp, main, cands, cps, p, side, val, j);
    }
  }

  // ---------------------------------------------------------------------------
  // add_alternative and add_synchronize
  // ---------------------------------------------------------------------------

  /** `main` and `cand` share start, size and end whenever every literal of `enforce` holds. */
  function SameTimes(main: PlusInterval, cand: PlusInterval, enforce: seq<Lit>): seq<Record>
  {
    [Linear(enforce, main.start, Eq, cand.start), Linear(enforce, main.size, Eq, cand.size), Linear(enforce, main.end, Eq, cand.end)]
  }

  /** The two intervals have the same start, size and end. */
  predicate Aligned(main: PlusInterval, cand: PlusInterval, val: Valuation)
  {
    Eval(main.start, val) == Eval(cand.start, val) && Eval(main.size, val) == Eval(cand.size, val) &&
    Eval(main.end, val) == Eval(cand.end, val)
  }

  lemma {:induction false} SameTimesMeaning(main: PlusInterval, cand: PlusInterval, enforce: seq<Lit>, val: Valuation)
    ensures Satisfies(SameTimes(main, cand, enforce), val) <==> (AllTrue(enforce, val) ==> Aligned(main, cand, val))
  {
    var r := SameTimes(main, cand, enforce);
    assert Satisfies(r, val) <==> Holds(r[0], val) && Holds(r[1], val) && Holds(r[2], val);
  }

  /** The three equalities `main.X == cand.X`, each enforced on `enforce`. */
  method AddSameTimes(m: Model, main: PlusInterval, cand: PlusInterval, enforce: seq<Lit>)
    modifies m
    ensures m.log == old(m.log) + SameTimes(main, cand, enforce)
    ensures m.next == old(m.next) && m.hints == old(m.hints) && m.objective == old(m.objective)
  {
    ghost var log0 := m.log;
    m.Add(Linear(enforce, main.start, Eq, cand.start));
    m.Add(Linear(enforce, main.size, Eq, cand.size));
    m.Add(Linear(enforce, main.end, Eq, cand.end));
    assert m.log == log0 + SameTimes(main, cand, enforce);
  }

  /** `cardinality * presence_of(main) == sum(presences)`. */
  function CardinalityRecord(mp: Lit, cps: seq<Lit>, card: int): Record
  {
    Linear([], Times(card, Bool(mp)), Eq, Sum(Bools(cps)))
  }

  /**
   * The error of `add_alternative`: `presence_of` fails on a candidate or
   * on the main interval exactly when one of them has several enforcement
   * literals.
   */
  function AlternativeError(main: PlusInterval, cands: seq<PlusInterval>): (r: Option<PlusError>)
    ensures r.Some? <==> !Presentable(main) || exists k :: 0 <= k < |cands| && !Presentable(cands[k])
    ensures r.Some? ==> r.value == MultipleLiterals
  {
    if Presences(cands).Err? then Some(Presences(cands).error)
    else if PresenceOf(main).Err? then Some(PresenceOf(main).error)
    else None
  }

  /** The log after `add_alternative` has added the cardinality record and the equalities of the first `n` candidates. */
  function AlternativeLog(log0: seq<Record>, main: PlusInterval, cands: seq<PlusInterval>, card: int, n: nat): seq<Record>
    requires AlternativeError(main, cands).None? && n <= |cands|
  {
    if n == 0 then log0 + [CardinalityRecord(PresenceOf(main).value, Presences(cands).value, card)]
    else AlternativeLog(log0, main, cands, card, n - 1) + SameTimes(main, cands[n - 1], [Presences(cands).value[n - 1]])
  }

  /**
   * `add_alternative`: fails, leaving the model unchanged, when some
   * interval has several enforcement literals; otherwise adds the
   * cardinality record and, per candidate, the three equalities enforced on
   * its presence.
   */
  method AddAlternative(m: Model, main: PlusInterval, cands: seq<PlusInterval>, card: int) returns (r: Option<PlusError>)
    modifies m
    ensures r == AlternativeError(main, cands)
    ensures r.Some? ==> m.log == old(m.log)
    ensures r.None? ==> m.log == AlternativeLog(old(m.log), main, cands, card, |cands|)
    ensures m.next == old(m.next) && m.hints == old(m.hints) && m.objective == old(m.objective)
  {
    var cps := Presences(cands);
    if cps.Err? {
      return Some(cps.error);
    }
    var mp := PresenceOf(main);
    if mp.Err? {
      return Some(mp.error);
    }
    m.Add(CardinalityRecord(mp.value, cps.value, card));
    var k: nat := 0;
    while k < |cands|
      invariant k <= |cands|
      invariant m.log == AlternativeLog(old(m.log), main, cands, card, k)
      invariant m.next == old(m.next) && m.hints == old(m.hints) && m.objective == old(m.objective)
    {
      var cp := PresenceOf(cands[k]);
      AddSameTimes(m, main, cands[k], [cp.value]);
      k := k + 1;
    }
    return None;
  }

  /** The number of present intervals. */
  function CountEnforced(ivs: seq<PlusInterval>, val: Valuation): (n: nat)
    ensures n <= |ivs|
  {
    if ivs == [] then 0
    else CountEnforced(ivs[..|ivs| - 1], val) + if Enforced(ivs[|ivs| - 1], val) then 1 else 0
  }

  /** No interval is present exactly when the count is zero. */
  lemma {:induction false} CountEnforcedZero(ivs: seq<PlusInterval>, val: Valuation)
    ensures CountEnforced(ivs, val) == 0 <==> forall k :: 0 <= k < |ivs| ==> !Enforced(ivs[k], val)
  {
    if ivs != [] {
      var init := ivs[..|ivs| - 1];
      CountEnforcedZero(init, val);
      assert forall k :: 0 <= k < |init| ==> init[k] == ivs[k];
    }
  }

  /** The presence literals count the present intervals. */
  lemma {:induction false} CountPresences(ivs: seq<PlusInterval>, val: Valuation)
    requires Presences(ivs).Ok?
    ensures CountTrue(Presences(ivs).value, val) == CountEnforced(ivs, val)
  {
    if ivs != [] {
      var init := ivs[..|ivs| - 1];
      var ps := Presences(ivs).value;
      assert forall k :: 0 <= k < |init| ==> init[k] == ivs[k];
      assert Presences(init).Ok?;
      assert ps[..|ps| - 1] == Presences(init).value;
      CountPresences(init, val);
      CandidatePresent(ivs, val, |ivs| - 1);
    }
  }

  /** On 0/1 literals the cardinality record holds exactly when `card` times the main presence counts the present candidates. */
  lemma {:induction false} CardinalityMeaning(main: PlusInterval, cands: seq<PlusInterval>, card: int, val: Valuation)
    requires AlternativeError(main, cands).None? && IntervalsBool(main, cands, val)
    ensures Holds(CardinalityRecord(PresenceOf(main).value, Presences(cands).value, card), val) <==>
      card * (if Enforced(main, val) then 1 else 0) == CountEnforced(cands, val)
  {
    var mp := PresenceOf(main).value;
    var cps := Presences(cands).value;
    var b := if Enforced(main, val) then 1 else 0;
    PresenceBool(main, val);
    BoolValue(mp, val);
    assert Eval(Times(card, Bool(mp)), val) == card * b;
    PresencesBool(cands, val);
    SumOfLiterals(cps, val);
    CountPresences(cands, val);
    assert Eval(Sum(Bools(cps)), val) == CountEnforced(cands, val);
  }

  /** Every present one of the first `n` candidates shares start, size and end with the main interval. */
  predicate PresentAligned(main: PlusInterval, cands: seq<PlusInterval>, n: nat, val: Valuation)
    requires n <= |cands|
  {
    forall k :: 0 <= k < n && Enforced(cands[k], val) ==> Aligned(main, cands[k], val)
  }

  lemma {:induction false} PresentAlignedSnoc(main: PlusInterval, cands: seq<PlusInterval>, n: nat, val: Valuation)
    requires 0 < n <= |cands|
    ensures PresentAligned(main, cands, n, val) <==>
      PresentAligned(main, cands, n - 1, val) && (Enforced(cands[n - 1], val) ==> Aligned(main, cands[n - 1], val))
  {
  }

  /** The equalities of one candidate hold exactly when, if present, it is aligned with the main interval. */
  lemma {:induction false} AlternativeBlock(main: PlusInterval, cands: seq<PlusInterval>, k: nat, val: Valuation)
    requires AlternativeError(main, cands).None? && k < |cands|
    ensures Satisfies(SameTimes(main, cands[k], [Presences(cands).value[k]]), val) <==>
      (Enforced(cands[k], val) ==> Aligned(main, cands[k], val))
  {
    var cp := Presences(cands).value[k];
    SameTimesMeaning(main, cands[k], [cp], val);
    CandidatePresent(cands, val, k);
    assert [cp][0] == cp;
  }

  /** The log after the cardinality record. */
  lemma {:induction false} CardinalityFirst(log0: seq<Record>, main: PlusInterval, cands: seq<PlusInterval>, card: int, val: Valuation)
    requires AlternativeError(main, cands).None? && IntervalsBool(main, cands, val)
    ensures Satisfies(AlternativeLog(log0, main, cands, card, 0), val) <==>
      Satisfies(log0, val) && card * (if Enforced(main, val) then 1 else 0) == CountEnforced(cands, val)
  {
    SatisfiesSnoc(log0, CardinalityRecord(PresenceOf(main).value, Presences(cands).value, card), val);
    CardinalityMeaning(main, cands, card, val);
  }

  /**
   * On 0/1 presence literals, `add_alternative`'s records hold exactly when
   * `card` times the main presence is the number of present candidates and
   * every present candidate shares start, size and end with the main interval.
   */
  lemma {:induction false} AlternativeMeaning(log0: seq<Record>, main: PlusInterval, cands: seq<PlusInterval>, card: int, n: nat, val: Valuation)
    requires AlternativeError(main, cands).None? && n <= |cands| && IntervalsBool(main, cands, val)
    ensures Satisfies(AlternativeLog(log0, main, cands, card, n), val) <==>
      Satisfies(log0, val) && card * (if Enforced(main, val) then 1 else 0) == CountEnforced(cands, val) &&
      PresentAligned(main, cands, n, val)
  {
    if n == 0 {
      CardinalityFirst(log0, main, cands, card, val);
    } else {
      var cp := Presences(cands).value[n - 1];
      SatisfiesConcat(AlternativeLog(log0, main, cands, card, n - 1), SameTimes(main, cands[n - 1], [cp]), val);
      AlternativeMeaning(log0, main, cands, card, n - 1, val);
      AlternativeBlock(main, cands, n - 1, val);
      PresentAlignedSnoc(main, cands, n, val);
    }
  }

  /**
   * With a cardinality of at least one, the main interval is present exactly
   * when some candidate is, and then exactly `card` candidates are present.
   */
  lemma {:induction false} AlternativePresence(log0: seq<Record>, main: PlusInterval, cands: seq<PlusInterval>, card: int, val: Valuation)
    requires AlternativeError(main, cands).None? && IntervalsBool(main, cands, val) && card >= 1
    requires Satisfies(AlternativeLog(log0, main, cands, card, |cands|), val)
    ensures Enforced(main, val) <==> exists k :: 0 <= k < |cands| && Enforced(cands[k], val)
    ensures Enforced(main, val) ==> CountEnforced(cands, val) == card
  {
    AlternativeMeaning(log0, main, cands, card, |cands|, val);
    CountEnforcedZero(cands, val);
  }

  /** The longest prefix of intervals on which `presence_of` succeeds. */
  function PresentablePrefix(ivs: seq<PlusInterval>): (n: nat)
    ensures n <= |ivs| && forall k :: 0 <= k < n ==> Presentable(ivs[k])
    ensures n < |ivs| ==> !Presentable(ivs[n])
  {
    if ivs == [] || !Presentable(ivs[0]) then 0 else 1 + PresentablePrefix(ivs[1..])
  }

  /**
   * The number of candidates `add_synchronize` handles before `presence_of`
   * fails: none when it fails on the main interval.
   */
  function SyncReach(main: PlusInterval, cands: seq<PlusInterval>): (n: nat)
    ensures n <= |cands| && (n > 0 ==> Presentable(main))
    ensures forall k :: 0 <= k < n ==> Presentable(cands[k])
    ensures n < |cands| ==> !Presentable(main) || !Presentable(cands[n])
  {
    if Presentable(main) then PresentablePrefix(cands) else 0
  }

  /** The log after `add_synchronize` has handled the first `n` candidates. */
  function SyncLog(log0: seq<Record>, main: PlusInterval, cands: seq<PlusInterval>, n: nat): seq<Record>
    requires n <= SyncReach(main, cands)
  {
    if n == 0 then log0
    else SyncLog(log0, main, cands, n - 1) + SameTimes(main, cands[n - 1], [PresenceOf(main).value, PresenceOf(cands[n - 1]).value])
  }

  /**
   * `add_synchronize`: per candidate, the three equalities enforced on both
   * presences. `presence_of` fails at the first interval with several
   * enforcement literals; the candidates handled before it keep their
   * records, and without candidates nothing fails.
   */
  method AddSynchronize(m: Model, main: PlusInterval, cands: seq<PlusInterval>) returns (r: Option<PlusError>)
    modifies m
    ensures r.Some? <==> SyncReach(main, cands) < |cands|
    ensures r.Some? ==> r.value == MultipleLiterals
    ensures m.log == SyncLog(old(m.log), main, cands, SyncReach(main, cands))
    ensures m.next == old(m.next) && m.hints == old(m.hints) && m.objective == old(m.objective)
  {
    var k: nat := 0;
    while k < |cands|
      invariant k <= SyncReach(main, cands)
      invariant m.log == SyncLog(old(m.log), main, cands, k)
      invariant m.next == old(m.next) && m.hints == old(m.hints) && m.objective == old(m.objective)
    {
      var mp := PresenceOf(main);
      if mp.Err? {
        return Some(mp.error);
      }
      var cp := PresenceOf(cands[k]);
      if cp.Err? {
        return Some(cp.error);
      }
      AddSameTimes(m, main, cands[k], [mp.value, cp.value]);
      k := k + 1;
    }
    return None;
  }

  /** Every one of the first `n` candidates that is present with the main interval shares its start, size and end. */
  predicate BothAligned(main: PlusInterval, cands: seq<PlusInterval>, n: nat, val: Valuation)
    requires n <= |cands|
  {
    forall k :: 0 <= k < n && Enforced(main, val) && Enforced(cands[k], val) ==> Aligned(main, cands[k], val)
  }

  /** The equalities of one candidate hold exactly when, if both are present, it is aligned with the main interval. */
  lemma {:induction false} SyncBlock(main: PlusInterval, cands: seq<PlusInterval>, k: nat, val: Valuation)
    requires k < SyncReach(main, cands)
    ensures Satisfies(SameTimes(main, cands[k], [PresenceOf(main).value, PresenceOf(cands[k]).value]), val) <==>
      (Enforced(main, val) && Enforced(cands[k], val) ==> Aligned(main, cands[k], val))
  {
    var both := [PresenceOf(main).value, PresenceOf(cands[k]).value];
    SameTimesMeaning(main, cands[k], both, val);
    assert AllTrue(both, val) <==> LitTrue(both[0], val) && LitTrue(both[1], val);
  }

  /**
   * `add_synchronize`'s records hold exactly when every handled candidate
   * that is present together with the main interval shares its start, size
   * and end.
   */
  lemma {:induction false} SyncMeaning(log0: seq<Record>, main: PlusInterval, cands: seq<PlusInterval>, n: nat, val: Valuation)
    requires n <= SyncReach(main, cands)
    ensures Satisfies(SyncLog(log0, main, cands, n), val) <==> Satisfies(log0, val) && BothAligned(main, cands, n, val)
  {
    if n > 0 {
      var both := [PresenceOf(main).value, PresenceOf(cands[n - 1]).value];
      SatisfiesConcat(SyncLog(log0, main, cands, n - 1), SameTimes(main, cands[n - 1], both), val);
      SyncMeaning(log0, main, cands, n - 1, val);
      SyncBlock(main, cands, n - 1, val);
      assert BothAligned(main, cands, n, val) <==>
        BothAligned(main, cands, n - 1, val) && (Enforced(main, val) && Enforced(cands[n - 1], val) ==> Aligned(main, cands[n - 1], val));
    }
  }
}
