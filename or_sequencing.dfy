/**
 * The sequencing builders of the OR-Tools back end
 * (`pyjobshop/solvers/ortools/Constraints.py`): consecutive and same-sequence
 * constraints, which activate machine sequences, and the circuit
 * constraints of every active sequence, over the variables record
 * `OrConstraints.Vars`.
 */
module OrSequencing {
  import opened Wrappers
  import opened ProblemData
  import opened Constraints
  import opened SolverUtils
  import opened SolverData
  import opened CpLog
  import opened OrConstraints

  // ------------------------------------------------------------ sequences

  /**
   * Which machine sequences are active (`SequenceVar.is_active`), by
   * resource index. Creating the arc literals on activation is
   * `OrVariables.SequenceVar.Activate`; here the literals are `Vars.arc`.
   */
  class Sequences {
    var active: set<int>

    constructor (active: set<int>)
      ensures this.active == active
    {
      this.active := active;
    }

    /** `seq_var.activate(model)`; activating an active sequence changes nothing. */
    method Activate(r: int)
      modifies this
      ensures active == old(active) + {r}
    {
      active := active + {r};
    }
  }

  // ------------------------------------------------------------ consecutive

  predicate BothAssigned(v: Vars, t1: int, t2: int, r: int)
  {
    (t1, r) in v.assign && (t2, r) in v.assign
  }

  /** `add(arc == 1).only_enforce_if([var1.present, var2.present])`. */
  function ConsecutiveRow(v: Vars, t1: int, t2: int, r: int): Record
    requires BothAssigned(v, t1, t2, r)
  {
    Linear([v.assign[(t1, r)].present, v.assign[(t2, r)].present], Bool(v.arc(r, t1, t2)), Eq, Num(1))
  }

  /** The records of one consecutive pair over the first `k` machines. */
  function ConsecutivePairRows(v: Vars, t1: int, t2: int, machines: seq<nat>, k: nat): seq<Record>
    requires k <= |machines|
  {
    if k == 0 then []
    else
      var r := machines[k - 1];
      ConsecutivePairRows(v, t1, t2, machines, k - 1)
      + (if BothAssigned(v, t1, t2, r) then [ConsecutiveRow(v, t1, t2, r)] else [])
  }

  /** The machines one consecutive pair activates, among the first `k`. */
  function ConsecutivePairMachines(v: Vars, t1: int, t2: int, machines: seq<nat>, k: nat): set<int>
    requires k <= |machines|
  {
    if k == 0 then {}
    else
      var r := machines[k - 1];
      ConsecutivePairMachines(v, t1, t2, machines, k - 1) + (if BothAssigned(v, t1, t2, r) then {r} else {})
  }

  /** The records of consecutive pair `i` over all the machines. */
  function PairBlock(v: Vars, pairs: seq<(nat, nat)>, machines: seq<nat>, i: nat): seq<Record>
    requires i < |pairs|
  {
    ConsecutivePairRows(v, pairs[i].0, pairs[i].1, machines, |machines|)
  }

  function PairBlocks(v: Vars, pairs: seq<(nat, nat)>, machines: seq<nat>, n: nat): (bs: seq<seq<Record>>)
    requires n <= |pairs|
    ensures |bs| == n && forall i {:trigger bs[i]} :: 0 <= i < n ==> bs[i] == PairBlock(v, pairs, machines, i)
  {
    seq(n, i requires 0 <= i < n => PairBlock(v, pairs, machines, i))
  }

  /** The records of the first `n` consecutive pairs, pair after pair. */
  function ConsecutiveRecords(v: Vars, pairs: seq<(nat, nat)>, machines: seq<nat>, n: nat): seq<Record>
    requires n <= |pairs|
  {
    if n == 0 then [] else ConsecutiveRecords(v, pairs, machines, n - 1) + PairBlock(v, pairs, machines, n - 1)
  }

  /** The records are the pairs' blocks laid end to end. */
  lemma {:induction false} ConsecutiveFlat(v: Vars, pairs: seq<(nat, nat)>, machines: seq<nat>, n: nat)
    requires n <= |pairs|
    ensures ConsecutiveRecords(v, pairs, machines, n) == Flatten(PairBlocks(v, pairs, machines, n))
  {
    if n > 0 {
      ConsecutiveFlat(v, pairs, machines, n - 1);
      assert PairBlocks(v, pairs, machines, n)[..n - 1] == PairBlocks(v, pairs, machines, n - 1);
    }
  }

  function ConsecutiveMachines(v: Vars, pairs: seq<(nat, nat)>, machines: seq<nat>, n: nat): set<int>
    requires n <= |pairs|
  {
    if n == 0 then {}
    else
      ConsecutiveMachines(v, pairs, machines, n - 1)
      + ConsecutivePairMachines(v, pairs[n - 1].0, pairs[n - 1].1, machines, |machines|)
  }

  /** `_consecutive_constraints`. */
  method ConsecutiveConstraints(m: Model, s: Sequences, d: SolverData, v: Vars, pairs: seq<(nat, nat)>)
    modifies m, s
    ensures m.log == old(m.log) + ConsecutiveRecords(v, pairs, MachineIdcs(d), |pairs|)
    ensures s.active == old(s.active) + ConsecutiveMachines(v, pairs, MachineIdcs(d), |pairs|)
    ensures m.next == old(m.next) && m.hints == old(m.hints) && m.objective == old(m.objective)
  {
    var machines := MachineIdcs(d);
    ghost var log0 := m.log;
    var i: nat := 0;
    while i < |pairs|
      invariant i <= |pairs|
      invariant m.log == log0 + ConsecutiveRecords(v, pairs, machines, i)
      invariant s.active == old(s.active) + ConsecutiveMachines(v, pairs, machines, i)
      invariant m.next == old(m.next) && m.hints == old(m.hints) && m.objective == old(m.objective)
    {
      var (t1, t2) := pairs[i];
      AddConsecutivePair(m, s, v, t1, t2, machines);
      AppendAssoc(log0, ConsecutiveRecords(v, pairs, machines, i), ConsecutivePairRows(v, t1, t2, machines, |machines|));
      ConsecutiveNext(v, pairs, machines, i);
      i := i + 1;
    }
  }

  method AddConsecutivePair(m: Model, s: Sequences, v: Vars, t1: int, t2: int, machines: seq<nat>)
    modifies m, s
    ensures m.log == old(m.log) + ConsecutivePairRows(v, t1, t2, machines, |machines|)
    ensures s.active == old(s.active) + ConsecutivePairMachines(v, t1, t2, machines, |machines|)
    ensures m.next == old(m.next) && m.hints == old(m.hints) && m.objective == old(m.objective)
  {
    ghost var x := m.log;
    var k: nat := 0;
    while k < |machines|
      invariant k <= |machines|
      invariant m.log == x + ConsecutivePairRows(v, t1, t2, machines, k)
      invariant s.active == old(s.active) + ConsecutivePairMachines(v, t1, t2, machines, k)
      invariant m.next == old(m.next) && m.hints == old(m.hints) && m.objective == old(m.objective)
    {
      var r := machines[k];
      ConsecutivePairNext(v, t1, t2, machines, k);
      if (t1, r) in v.assign && (t2, r) in v.assign {
        s.Activate(r);
        m.Add(ConsecutiveRow(v, t1, t2, r));
      }
      k := k + 1;
    }
  }

  lemma ConsecutiveNext(v: Vars, pairs: seq<(nat, nat)>, machines: seq<nat>, i: nat)
    requires i < |pairs|
    ensures ConsecutiveRecords(v, pairs, machines, i + 1)
            == ConsecutiveRecords(v, pairs, machines, i) + ConsecutivePairRows(v, pairs[i].0, pairs[i].1, machines, |machines|)
    ensures ConsecutiveMachines(v, pairs, machines, i + 1)
            == ConsecutiveMachines(v, pairs, machines, i) + ConsecutivePairMachines(v, pairs[i].0, pairs[i].1, machines, |machines|)
  {
  }

  lemma ConsecutivePairNext(v: Vars, t1: int, t2: int, machines: seq<nat>, k: nat)
    requires k < |machines|
    ensures var r := machines[k];
            ConsecutivePairRows(v, t1, t2, machines, k + 1)
            == ConsecutivePairRows(v, t1, t2, machines, k) + (if BothAssigned(v, t1, t2, r) then [ConsecutiveRow(v, t1, t2, r)] else [])
    ensures var r := machines[k];
            ConsecutivePairMachines(v, t1, t2, machines, k + 1)
            == ConsecutivePairMachines(v, t1, t2, machines, k) + (if BothAssigned(v, t1, t2, r) then {r} else {})
  {
  }

  lemma {:induction false} ConsecutivePairMachinesMeaning(v: Vars, t1: int, t2: int, machines: seq<nat>, k: nat, r: int)
    requires k <= |machines|
    ensures r in ConsecutivePairMachines(v, t1, t2, machines, k) <==>
            (exists j :: 0 <= j < k && machines[j] == r) && BothAssigned(v, t1, t2, r)
  {
    if k > 0 {
      ConsecutivePairMachinesMeaning(v, t1, t2, machines, k - 1, r);
    }
  }

  /**
   * The machines `_consecutive_constraints` activates are exactly the
   * machines on which both tasks of some pair have an assignment.
   */
  lemma {:induction false} ConsecutiveMachinesIn(v: Vars, pairs: seq<(nat, nat)>, machines: seq<nat>, n: nat, r: int)
    requires n <= |pairs|
    ensures r in ConsecutiveMachines(v, pairs, machines, n) <==>
            r in machines && exists i :: 0 <= i < n && BothAssigned(v, pairs[i].0, pairs[i].1, r)
  {
    if n > 0 {
      ConsecutiveMachinesIn(v, pairs, machines, n - 1, r);
      ConsecutivePairMachinesMeaning(v, pairs[n - 1].0, pairs[n - 1].1, machines, |machines|, r);
      if r in machines {
        var j :| 0 <= j < |machines| && machines[j] == r;
      }
    }
  }

  /**
   * The machines `_consecutive_constraints` activates are exactly the
   * machines on which both tasks of some pair have an assignment.
   */
  lemma {:induction false} ConsecutiveMachinesMeaning(d: SolverData, v: Vars, pairs: seq<(nat, nat)>, r: int)
    ensures r in ConsecutiveMachines(v, pairs, MachineIdcs(d), |pairs|) <==>
            IsMachine(d, r) && exists i :: 0 <= i < |pairs| && BothAssigned(v, pairs[i].0, pairs[i].1, r)
  {
    ConsecutiveMachinesIn(v, pairs, MachineIdcs(d), |pairs|, r);
  }

  lemma {:induction false} ConsecutivePairRowsContain(v: Vars, t1: int, t2: int, machines: seq<nat>, k: nat, j: nat)
    requires j < k <= |machines| && BothAssigned(v, t1, t2, machines[j])
    ensures ConsecutiveRow(v, t1, t2, machines[j]) in ConsecutivePairRows(v, t1, t2, machines, k)
  {
    if j < k - 1 {
      ConsecutivePairRowsContain(v, t1, t2, machines, k - 1, j);
    }
  }

  lemma {:induction false} ConsecutiveRecordsContain(v: Vars, pairs: seq<(nat, nat)>, machines: seq<nat>, n: nat, i: nat, rec: Record)
    requires i < n <= |pairs|
    requires rec in ConsecutivePairRows(v, pairs[i].0, pairs[i].1, machines, |machines|)
    ensures rec in ConsecutiveRecords(v, pairs, machines, n)
  {
    ConsecutiveFlat(v, pairs, machines, n);
    FlattenMember(PairBlocks(v, pairs, machines, n), i, rec);
  }

  /** When both tasks of a consecutive pair are present on a machine, the arc between them is selected. */
  lemma {:induction false} ConsecutiveMeaning(d: SolverData, v: Vars, val: Valuation, pairs: seq<(nat, nat)>, i: nat, r: int)
    requires i < |pairs| && IsMachine(d, r)
    requires Assigned(v, val, pairs[i].0, r) && Assigned(v, val, pairs[i].1, r)
    requires Satisfies(ConsecutiveRecords(v, pairs, MachineIdcs(d), |pairs|), val)
    ensures LitTrue(v.arc(r, pairs[i].0, pairs[i].1), val)
  {
    var machines := MachineIdcs(d);
    var j :| 0 <= j < |machines| && machines[j] == r;
    var (t1, t2) := pairs[i];
    ConsecutivePairRowsContain(v, t1, t2, machines, |machines|, j);
    ConsecutiveRecordsContain(v, pairs, machines, |pairs|, i, ConsecutiveRow(v, t1, t2, r));
    SatisfiesMember(ConsecutiveRecords(v, pairs, MachineIdcs(d), |pairs|), ConsecutiveRow(v, t1, t2, r), val);
    assert AllTrue([v.assign[(t1, r)].present, v.assign[(t2, r)].present], val);
  }

  // ---------------------------------------------------------- same sequence

  predicate NonDecreasing(s: seq<int>)
  {
    forall i, j :: 0 <= i < j < |s| ==> s[i] <= s[j]
  }

  function InsertSorted(s: seq<int>, x: int): (r: seq<int>)
    requires NonDecreasing(s)
    ensures NonDecreasing(r) && multiset(r) == multiset(s) + multiset{x}
    ensures forall y :: y in r ==> y in s || y == x
  {
    if s == [] then [x]
    else if x <= s[0] then
      ConsSorted(x, s);
      [x] + s
    else
      var rest := InsertSorted(s[1..], x);
      forall k | 0 <= k < |rest|
        ensures s[0] <= rest[k]
      {
        assert rest[k] in rest;
        if rest[k] != x {
          var j :| 0 <= j < |s[1..]| && s[1..][j] == rest[k];
          assert s[j + 1] == rest[k];
        }
      }
      ConsSorted(s[0], rest);
      assert s == [s[0]] + s[1..];
      [s[0]] + rest
  }

  /** A sorted sequence stays sorted behind an element no larger than any of it. */
  lemma {:induction false} ConsSorted(a: int, s: seq<int>)
    requires NonDecreasing(s) && forall k :: 0 <= k < |s| ==> a <= s[k]
    ensures NonDecreasing([a] + s)
  {
    var r := [a] + s;
    forall i, j | 0 <= i < j < |r|
      ensures r[i] <= r[j]
    {
      assert r[j] == s[j - 1];
      if i > 0 {
        assert r[i] == s[i - 1];
      }
    }
  }

  /** `sorted(s)`: duplicates kept. */
  function SortInts(s: seq<int>): (r: seq<int>)
    ensures NonDecreasing(r) && multiset(r) == multiset(s)
  {
    if s == [] then []
    else
      assert s == s[..|s| - 1] + [s[|s| - 1]];
      InsertSorted(SortInts(s[..|s| - 1]), s[|s| - 1])
  }

  /** The tasks of the listed modes, one per mode. */
  function TasksOf(d: SolverData, modes: seq<nat>): (r: seq<int>)
    requires ModeIndices(d, modes)
    ensures |r| == |modes| && forall i :: 0 <= i < |modes| ==> r[i] == d.modes[modes[i]].task
  {
    seq(|modes|, i requires 0 <= i < |modes| => d.modes[modes[i]].task)
  }

  /** `sorted(data.modes[idx].task for idx in data.resource2modes(r))`. */
  function DefaultTasks(d: SolverData, r: int): (ts: seq<int>)
    ensures NonDecreasing(ts) && multiset(ts) == multiset(TasksOf(d, Resource2Modes(d, r)))
  {
    SortInts(TasksOf(d, Resource2Modes(d, r)))
  }

  function TaskList(d: SolverData, r: int, given: Option<seq<nat>>): seq<int>
  {
    match given
    case Some(ts) => ts
    case None => DefaultTasks(d, r)
  }

  /** The first `a` rows of `product(ts, repeat=2)`: row `x` pairs `ts[x]` with every task in turn. */
  function Product(ts: seq<int>, a: nat): (r: seq<(int, int)>)
    requires a <= |ts|
    ensures |r| == a * |ts|
  {
    if a == 0 then []
    else Product(ts, a - 1) + seq(|ts|, j requires 0 <= j < |ts| => (ts[a - 1], ts[j]))
  }

  /** `product` lists every ordered pair, `(ts[x], ts[b])` at position `x * n + b`. */
  lemma {:induction false} ProductAt(ts: seq<int>, a: nat, x: nat, b: nat)
    requires x < a <= |ts| && b < |ts|
    ensures x * |ts| + b < |Product(ts, a)| && Product(ts, a)[x * |ts| + b] == (ts[x], ts[b])
  {
    if x < a - 1 {
      ProductAt(ts, a - 1, x, b);
    }
  }

  function Pairs(ts: seq<int>): (r: seq<(int, int)>)
    ensures |r| == |ts| * |ts|
  {
    Product(ts, |ts|)
  }

  /** How many pairs `zip` takes: the shorter product. */
  function ZipCount(ts1: seq<int>, ts2: seq<int>): nat
  {
    if |ts1| * |ts1| <= |ts2| * |ts2| then |ts1| * |ts1| else |ts2| * |ts2|
  }

  function SameSequenceRow(v: Vars, r1: int, r2: int, p: (int, int), q: (int, int)): Record
  {
    Linear([], Bool(v.arc(r1, p.0, p.1)), Eq, Bool(v.arc(r2, q.0, q.1)))
  }

  function SameSequenceRows(v: Vars, r1: int, r2: int, ts1: seq<int>, ts2: seq<int>, k: nat): seq<Record>
    requires k <= ZipCount(ts1, ts2)
  {
    if k == 0 then []
    else SameSequenceRows(v, r1, r2, ts1, ts2, k - 1) + [SameSequenceRow(v, r1, r2, Pairs(ts1)[k - 1], Pairs(ts2)[k - 1])]
  }

  function SameSequenceBlock(d: SolverData, v: Vars, c: SameSequence): seq<Record>
  {
    var ts1 := TaskList(d, c.res1, c.tasks1);
    var ts2 := TaskList(d, c.res2, c.tasks2);
    SameSequenceRows(v, c.res1, c.res2, ts1, ts2, ZipCount(ts1, ts2))
  }

  function SameSequenceBlocks(d: SolverData, v: Vars, cs: seq<SameSequence>, n: nat): (bs: seq<seq<Record>>)
    requires n <= |cs|
    ensures |bs| == n && forall i {:trigger bs[i]} :: 0 <= i < n ==> bs[i] == SameSequenceBlock(d, v, cs[i])
  {
    seq(n, i requires 0 <= i < n => SameSequenceBlock(d, v, cs[i]))
  }

  /** The records of the first `n` same-sequence constraints, constraint after constraint. */
  function SameSequenceRecords(d: SolverData, v: Vars, cs: seq<SameSequence>, n: nat): seq<Record>
    requires n <= |cs|
  {
    if n == 0 then [] else SameSequenceRecords(d, v, cs, n - 1) + SameSequenceBlock(d, v, cs[n - 1])
  }

  /** The records are the constraints' blocks laid end to end. */
  lemma {:induction false} SameSequenceFlat(d: SolverData, v: Vars, cs: seq<SameSequence>, n: nat)
    requires n <= |cs|
    ensures SameSequenceRecords(d, v, cs, n) == Flatten(SameSequenceBlocks(d, v, cs, n))
  {
    if n > 0 {
      SameSequenceFlat(d, v, cs, n - 1);
      assert SameSequenceBlocks(d, v, cs, n)[..n - 1] == SameSequenceBlocks(d, v, cs, n - 1);
    }
  }

  function SameSequenceMachines(cs: seq<SameSequence>, n: nat): set<int>
    requires n <= |cs|
  {
    if n == 0 then {} else SameSequenceMachines(cs, n - 1) + {cs[n - 1].res1, cs[n - 1].res2}
  }

  /** The same-sequence builder activates exactly the machines its constraints name. */
  lemma {:induction false} SameSequenceMachinesIn(cs: seq<SameSequence>, n: nat, x: int)
    requires n <= |cs|
    ensures x in SameSequenceMachines(cs, n) <==> exists i :: 0 <= i < n && (x == cs[i].res1 || x == cs[i].res2)
  {
    if n > 0 {
      SameSequenceMachinesIn(cs, n - 1, x);
    }
  }

  /** `variables.sequence_vars[r]` exists only for machines. */
  predicate SameSequenceMachinesOnly(d: SolverData, cs: seq<SameSequence>)
  {
    forall i :: 0 <= i < |cs| ==> IsMachine(d, cs[i].res1) && IsMachine(d, cs[i].res2)
  }

  /** `_same_sequence_constraints`. */
  method SameSequenceConstraints(m: Model, s: Sequences, d: SolverData, v: Vars, cs: seq<SameSequence>)
    requires SameSequenceMachinesOnly(d, cs)
    modifies m, s
    ensures m.log == old(m.log) + SameSequenceRecords(d, v, cs, |cs|)
    ensures s.active == old(s.active) + SameSequenceMachines(cs, |cs|)
    ensures m.next == old(m.next) && m.hints == old(m.hints) && m.objective == old(m.objective)
  {
    ghost var log0, active0 := m.log, s.active;
    var i: nat := 0;
    while i < |cs|
      invariant i <= |cs|
      invariant m.log == log0 + SameSequenceRecords(d, v, cs, i)
      invariant s.active == active0 + SameSequenceMachines(cs, i)
      invariant m.next == old(m.next) && m.hints == old(m.hints) && m.objective == old(m.objective)
    {
      SameSequenceStep(d, v, cs, i);
      AppendAssoc(log0, SameSequenceRecords(d, v, cs, i), SameSequenceBlock(d, v, cs[i]));
      AddSameSequence(m, s, d, v, cs[i]);
      i := i + 1;
    }
  }

  /** One same-sequence constraint: activate both sequences, then tie their arcs. */
  method AddSameSequence(m: Model, s: Sequences, d: SolverData, v: Vars, c: SameSequence)
    modifies m, s
    ensures m.log == old(m.log) + SameSequenceBlock(d, v, c)
    ensures s.active == old(s.active) + {c.res1, c.res2}
    ensures m.next == old(m.next) && m.hints == old(m.hints) && m.objective == old(m.objective)
  {
    s.Activate(c.res1);
    s.Activate(c.res2);
    var ts1 := TaskList(d, c.res1, c.tasks1);
    var ts2 := TaskList(d, c.res2, c.tasks2);
    AddSameSequenceRows(m, v, c.res1, c.res2, ts1, ts2);
  }

  method AddSameSequenceRows(m: Model, v: Vars, r1: int, r2: int, ts1: seq<int>, ts2: seq<int>)
    modifies m
    ensures m.log == old(m.log) + SameSequenceRows(v, r1, r2, ts1, ts2, ZipCount(ts1, ts2))
    ensures m.next == old(m.next) && m.hints == old(m.hints) && m.objective == old(m.objective)
  {
    ghost var log0 := m.log;
    var k := 0;
    var count := ZipCount(ts1, ts2);
    while k < count
      invariant k <= count
      invariant m.log == log0 + SameSequenceRows(v, r1, r2, ts1, ts2, k)
      invariant m.next == old(m.next) && m.hints == old(m.hints) && m.objective == old(m.objective)
    {
      m.Add(SameSequenceRow(v, r1, r2, Pairs(ts1)[k], Pairs(ts2)[k]));
      k := k + 1;
    }
  }

  lemma {:induction false} SameSequenceRowsContain(v: Vars, r1: int, r2: int, ts1: seq<int>, ts2: seq<int>, n: nat, k: nat)
    requires k < n <= ZipCount(ts1, ts2)
    ensures SameSequenceRow(v, r1, r2, Pairs(ts1)[k], Pairs(ts2)[k]) in SameSequenceRows(v, r1, r2, ts1, ts2, n)
  {
    if k < n - 1 {
      SameSequenceRowsContain(v, r1, r2, ts1, ts2, n - 1, k);
    }
  }

  lemma {:induction false} SameSequenceRecordsContain(d: SolverData, v: Vars, cs: seq<SameSequence>, n: nat, i: nat, rec: Record)
    requires i < n <= |cs| && rec in SameSequenceBlock(d, v, cs[i])
    ensures rec in SameSequenceRecords(d, v, cs, n)
  {
    SameSequenceFlat(d, v, cs, n);
    FlattenMember(SameSequenceBlocks(d, v, cs, n), i, rec);
  }

  lemma {:induction false} SameSequenceStep(d: SolverData, v: Vars, cs: seq<SameSequence>, n: nat)
    requires n < |cs|
    ensures SameSequenceRecords(d, v, cs, n + 1) == SameSequenceRecords(d, v, cs, n) + SameSequenceBlock(d, v, cs[n])
    ensures SameSequenceMachines(cs, n + 1) == SameSequenceMachines(cs, n) + {cs[n].res1, cs[n].res2}
  {
  }

  /** The `k`-th arc of the first sequence is selected iff the `k`-th arc of the second is. */
  lemma {:induction false} SameSequenceMeaning(d: SolverData, v: Vars, val: Valuation, cs: seq<SameSequence>, i: nat, k: nat)
    requires i < |cs| && Satisfies(SameSequenceRecords(d, v, cs, |cs|), val)
    requires var c := cs[i]; k < ZipCount(TaskList(d, c.res1, c.tasks1), TaskList(d, c.res2, c.tasks2))
    ensures var c := cs[i];
            var p := Pairs(TaskList(d, c.res1, c.tasks1))[k];
            var q := Pairs(TaskList(d, c.res2, c.tasks2))[k];
            IsBool(val, v.arc(c.res1, p.0, p.1)) && IsBool(val, v.arc(c.res2, q.0, q.1)) ==>
              (LitTrue(v.arc(c.res1, p.0, p.1), val) <==> LitTrue(v.arc(c.res2, q.0, q.1), val))
  {
    var c := cs[i];
    var ts1 := TaskList(d, c.res1, c.tasks1);
    var ts2 := TaskList(d, c.res2, c.tasks2);
    var p := Pairs(ts1)[k];
    var q := Pairs(ts2)[k];
    SameSequenceRowsContain(v, c.res1, c.res2, ts1, ts2, ZipCount(ts1, ts2), k);
    SameSequenceRecordsContain(d, v, cs, |cs|, i, SameSequenceRow(v, c.res1, c.res2, p, q));
    SatisfiesMember(SameSequenceRecords(d, v, cs, |cs|), SameSequenceRow(v, c.res1, c.res2, p, q), val);
    if IsBool(val, v.arc(c.res1, p.0, p.1)) && IsBool(val, v.arc(c.res2, q.0, q.1)) {
      BoolValue(v.arc(c.res1, p.0, p.1), val);
      BoolValue(v.arc(c.res2, q.0, q.1), val);
    }
  }

  /**
   * With task lists of equal length the two sequences agree pair by pair:
   * `i -> j` on the first machine iff `u -> w` on the second, where `u` and
   * `w` sit at the positions of `i` and `j`.
   */
  lemma {:induction false} SameSequencePositional(d: SolverData, v: Vars, val: Valuation, cs: seq<SameSequence>, i: nat, a: nat, b: nat)
    requires i < |cs| && Satisfies(SameSequenceRecords(d, v, cs, |cs|), val)
    requires var c := cs[i];
             var ts1 := TaskList(d, c.res1, c.tasks1);
             |ts1| == |TaskList(d, c.res2, c.tasks2)| && a < |ts1| && b < |ts1|
    ensures var c := cs[i];
            var ts1 := TaskList(d, c.res1, c.tasks1);
            var ts2 := TaskList(d, c.res2, c.tasks2);
            IsBool(val, v.arc(c.res1, ts1[a], ts1[b])) && IsBool(val, v.arc(c.res2, ts2[a], ts2[b])) ==>
              (LitTrue(v.arc(c.res1, ts1[a], ts1[b]), val) <==> LitTrue(v.arc(c.res2, ts2[a], ts2[b]), val))
  {
    var c := cs[i];
    var ts1 := TaskList(d, c.res1, c.tasks1);
    var ts2 := TaskList(d, c.res2, c.tasks2);
    var k := PairIndex(ts1, ts2, a, b);
    SameSequenceMeaning(d, v, val, cs, i, k);
  }

  /** Position `a * n + b` of both products pairs the tasks at positions `a` and `b`. */
  lemma {:induction false} PairIndex(ts1: seq<int>, ts2: seq<int>, a: nat, b: nat) returns (k: nat)
    requires |ts1| == |ts2| && a < |ts1| && b < |ts1|
    ensures k < ZipCount(ts1, ts2) && k < |Pairs(ts1)| && k < |Pairs(ts2)|
    ensures Pairs(ts1)[k] == (ts1[a], ts1[b]) && Pairs(ts2)[k] == (ts2[a], ts2[b])
  {
    ProductAt(ts1, |ts1|, a, b);
    ProductAt(ts2, |ts2|, a, b);
    k := a * |ts1| + b;
  }
}
