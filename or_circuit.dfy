/**
 * The circuit constraints of the OR-Tools back end
 * (`_circuit_constraints` in `pyjobshop/solvers/ortools/Constraints.py`):
 * every machine whose sequence is active, or is activated here by nonzero
 * setup times or by the no-idle flag, gets a circuit over its arcs, loops
 * for absent tasks, and a timing constraint behind every selected arc.
 */
module OrCircuit {
  import opened Wrappers
  import opened ProblemData
  import opened Constraints
  import opened SolverUtils
  import opened SolverData
  import opened CpLog
  import opened OrConstraints
  import opened OrSequencing

  /** `SequenceVar.DUMMY`. */
  const Dummy: int := -1

  /** `np.any(setup_times[r])`: some setup time on resource `r` is nonzero. */
  predicate HasSetup(c: SolverConstraints, r: int, n: nat)
  {
    exists t1, t2 :: 0 <= t1 < n && 0 <= t2 < n && LastSetup(c.setupTimes, r, t1, t2) != 0
  }

  /** This builder itself activates machine `r`. */
  predicate Activates(d: SolverData, c: SolverConstraints, r: int)
  {
    IsMachine(d, r) && (HasSetup(c, r, |d.tasks|) || d.resources[r].noIdle)
  }

  /** Every setup-time record names a resource and two tasks of the data. */
  predicate SetupsIndexed(d: SolverData, c: SolverConstraints)
  {
    forall k :: 0 <= k < |c.setupTimes| ==>
      0 <= c.setupTimes[k].resource < |d.resources| && 0 <= c.setupTimes[k].task1 < |d.tasks|
      && 0 <= c.setupTimes[k].task2 < |d.tasks|
  }

  /**
   * `res_tasks`: the tasks with a mode on resource `r`. The source iterates a
   * set; the model fixes increasing order.
   */
  function ResTasks(d: SolverData, r: int): (ts: seq<int>)
    ensures Increasing(ts)
    ensures forall t :: t in ts <==> exists m :: 0 <= m < |d.modes| && d.modes[m].task == t && r in d.modes[m].resources
  {
    var modes := Resource2Modes(d, r);
    var all := TasksOf(d, modes);
    var ts := SortedSet(all);
    forall t
      ensures t in ts <==> exists m :: 0 <= m < |d.modes| && d.modes[m].task == t && r in d.modes[m].resources
    {
      assert t in ts <==> t in Elements(all);
      if t in all {
        var i :| 0 <= i < |all| && all[i] == t;
        assert d.modes[modes[i]].task == t;
      }
      if exists m :: 0 <= m < |d.modes| && d.modes[m].task == t && r in d.modes[m].resources {
        var m :| 0 <= m < |d.modes| && d.modes[m].task == t && r in d.modes[m].resources;
        var i :| 0 <= i < |modes| && modes[i] == m;
        assert all[i] == t;
      }
    }
    ts
  }

  predicate TasksAssigned(v: Vars, r: int, ts: seq<int>)
  {
    forall i :: 0 <= i < |ts| ==> (ts[i], r) in v.assign
  }

  /** Every task of `res_tasks` has an assignment to `r`, and is a task of the data. */
  lemma {:induction false} ResTasksKnown(d: SolverData, v: Vars, r: int)
    requires Indexed(d) && ModesKnown(d, v)
    ensures TasksAssigned(v, r, ResTasks(d, r))
    ensures forall i :: 0 <= i < |ResTasks(d, r)| ==> 0 <= ResTasks(d, r)[i] < |d.tasks|
  {
    var ts := ResTasks(d, r);
    forall i | 0 <= i < |ts|
      ensures (ts[i], r) in v.assign && 0 <= ts[i] < |d.tasks|
    {
      assert ts[i] in ts;
      var m :| 0 <= m < |d.modes| && d.modes[m].task == ts[i] && r in d.modes[m].resources;
      assert ModeKnown(v, d.modes[m]);
      var k :| 0 <= k < |d.modes[m].resources| && d.modes[m].resources[k] == r;
    }
  }

  function Present(v: Vars, r: int, t: int): Lit
    requires (t, r) in v.assign
  {
    v.assign[(t, r)].present
  }

  /** `loop == ~var1.present`. */
  function LoopRow(v: Vars, r: int, t: int): Record
    requires (t, r) in v.assign
  {
    Linear([], Bool(v.arc(r, t, t)), Eq, Bool(Negate(Present(v, r, t))))
  }

  /** `dummy_loop <= ~var1.present`. */
  function DummyRow(v: Vars, r: int, t: int): Record
    requires (t, r) in v.assign
  {
    Linear([], Bool(v.arc(r, Dummy, Dummy)), Le, Bool(Negate(Present(v, r, t))))
  }

  /** `arc <= var.present`. */
  function ArcRow(v: Vars, r: int, t1: int, t2: int, t: int): Record
    requires (t, r) in v.assign
  {
    Linear([], Bool(v.arc(r, t1, t2)), Le, Bool(Present(v, r, t)))
  }

  /** `var1.end + setup == var2.start` (no idle) or `<=`, enforced by the arc. */
  function SetupRow(v: Vars, c: SolverConstraints, r: int, noIdle: bool, t1: int, t2: int): Record
    requires (t1, r) in v.assign && (t2, r) in v.assign
  {
    Linear([v.arc(r, t1, t2)], Plus(Value(v.assign[(t1, r)].end), Num(LastSetup(c.setupTimes, r, t1, t2))),
           if noIdle then Eq else Le, Value(v.assign[(t2, r)].start))
  }

  function PairRows(v: Vars, c: SolverConstraints, r: int, noIdle: bool, t1: int, t2: int): seq<Record>
    requires (t1, r) in v.assign && (t2, r) in v.assign
  {
    [ArcRow(v, r, t1, t2, t1), ArcRow(v, r, t1, t2, t2), SetupRow(v, c, r, noIdle, t1, t2)]
  }

  /** The arc records from `t1` to the first `k` tasks other than `t1`. */
  function ArcRows(v: Vars, c: SolverConstraints, r: int, noIdle: bool, t1: int, ts: seq<int>, k: nat): seq<Record>
    requires TasksAssigned(v, r, ts) && (t1, r) in v.assign && k <= |ts|
  {
    if k == 0 then []
    else
      ArcRows(v, c, r, noIdle, t1, ts, k - 1)
      + (if ts[k - 1] == t1 then [] else PairRows(v, c, r, noIdle, t1, ts[k - 1]))
  }

  function TaskRows(v: Vars, c: SolverConstraints, r: int, noIdle: bool, t1: int, ts: seq<int>): seq<Record>
    requires TasksAssigned(v, r, ts) && (t1, r) in v.assign
  {
    [LoopRow(v, r, t1), DummyRow(v, r, t1)] + ArcRows(v, c, r, noIdle, t1, ts, |ts|)
  }

  function TasksRows(v: Vars, c: SolverConstraints, r: int, noIdle: bool, ts: seq<int>, k: nat): seq<Record>
    requires TasksAssigned(v, r, ts) && k <= |ts|
  {
    if k == 0 then [] else TasksRows(v, c, r, noIdle, ts, k - 1) + TaskRows(v, c, r, noIdle, ts[k - 1], ts)
  }

  /** The records of one active machine. */
  function MachineCircuit(v: Vars, c: SolverConstraints, r: int, noIdle: bool, ts: seq<int>): seq<Record>
    requires TasksAssigned(v, r, ts)
  {
    [Circuit(v.graph(r))] + TasksRows(v, c, r, noIdle, ts, |ts|)
  }

  function MachineBlock(d: SolverData, v: Vars, c: SolverConstraints, active0: set<int>, r: nat): seq<Record>
    requires Indexed(d) && ModesKnown(d, v) && IsMachine(d, r)
  {
    if r in active0 || Activates(d, c, r) then
      ResTasksKnown(d, v, r);
      MachineCircuit(v, c, r, d.resources[r].noIdle, ResTasks(d, r))
    else []
  }

  /** The records `_circuit_constraints` emits for the first `n` machines, given the sequences active on entry. */
  function CircuitRecords(d: SolverData, v: Vars, c: SolverConstraints, active0: set<int>, machines: seq<nat>, n: nat): seq<Record>
    requires Indexed(d) && ModesKnown(d, v) && n <= |machines|
    requires AllMachines(d, machines)
  {
    if n == 0 then []
    else CircuitRecords(d, v, c, active0, machines, n - 1) + MachineBlock(d, v, c, active0, machines[n - 1])
  }

  /** The machines this builder activates. */
  function CircuitActivated(d: SolverData, c: SolverConstraints, machines: seq<nat>, n: nat): set<int>
    requires n <= |machines|
  {
    if n == 0 then {}
    else
      var r := machines[n - 1];
      CircuitActivated(d, c, machines, n - 1) + (if Activates(d, c, r) then {r} else {})
  }

  lemma {:induction false} CircuitActivatedIn(d: SolverData, c: SolverConstraints, machines: seq<nat>, n: nat, r: int)
    requires n <= |machines|
    ensures r in CircuitActivated(d, c, machines, n) <==> (exists k :: 0 <= k < n && machines[k] == r) && Activates(d, c, r)
  {
    if n > 0 {
      CircuitActivatedIn(d, c, machines, n - 1, r);
    }
  }

  /**
   * The machines `_circuit_constraints` activates are exactly those with a
   * nonzero setup time or the no-idle flag.
   */
  lemma {:induction false} CircuitActivatedMeaning(d: SolverData, c: SolverConstraints, r: int)
    ensures r in CircuitActivated(d, c, MachineIdcs(d), |MachineIdcs(d)|) <==>
            IsMachine(d, r) && (HasSetup(c, r, |d.tasks|) || d.resources[r].noIdle)
  {
    var machines := MachineIdcs(d);
    CircuitActivatedIn(d, c, machines, |machines|, r);
    if IsMachine(d, r) {
      var k :| 0 <= k < |machines| && machines[k] == r;
    }
  }

  /** `np.any(setup[r])` on the setup-time matrix. */
  method AnyNonzero(a: array3<int>, r: nat) returns (b: bool)
    requires r < a.Length0
    ensures b <==> exists x, y :: 0 <= x < a.Length1 && 0 <= y < a.Length2 && a[r, x, y] != 0
  {
    b := false;
    var i := 0;
    while i < a.Length1
      invariant i <= a.Length1
      invariant b <==> exists x, y :: 0 <= x < i && 0 <= y < a.Length2 && a[r, x, y] != 0
    {
      var j := 0;
      ghost var before := b;
      while j < a.Length2
        invariant j <= a.Length2
        invariant b <==> before || exists y :: 0 <= y < j && a[r, i, y] != 0
      {
        if a[r, i, j] != 0 {
          b := true;
        }
        j := j + 1;
      }
      i := i + 1;
    }
  }

  /** The setup-time matrix as `setup_times_matrix` returns it. */
  predicate SetupMatrix(d: SolverData, c: SolverConstraints, setup: Option<array3<int>>)
    reads if setup.Some? then {setup.value} else {}
  {
    && (setup.None? <==> c.setupTimes == [])
    && (setup.Some? ==>
          && setup.value.Length0 == |d.resources| && setup.value.Length1 == |d.tasks|
          && setup.value.Length2 == |d.tasks|
          && forall a, b, e :: 0 <= a < |d.resources| && 0 <= b < |d.tasks| && 0 <= e < |d.tasks| ==>
               setup.value[a, b, e] == LastSetup(c.setupTimes, a, b, e))
  }

  /** `_circuit_constraints`. */
  method CircuitConstraints(m: Model, s: Sequences, d: SolverData, v: Vars, c: SolverConstraints)
    requires Indexed(d) && ModesKnown(d, v) && SetupsIndexed(d, c)
    modifies m, s
    ensures m.log == old(m.log) + CircuitRecords(d, v, c, old(s.active), MachineIdcs(d), |MachineIdcs(d)|)
    ensures s.active == old(s.active) + CircuitActivated(d, c, MachineIdcs(d), |MachineIdcs(d)|)
    ensures m.next == old(m.next) && m.hints == old(m.hints) && m.objective == old(m.objective)
  {
    var setup := SetupTimesMatrix(c.setupTimes, |d.resources|, |d.tasks|);
    var machines := MachineIdcs(d);
    CircuitLoop(m, s, d, v, c, setup, machines);
  }

  /** The loop of `_circuit_constraints` over the machines, in index order. */
  method CircuitLoop(m: Model, s: Sequences, d: SolverData, v: Vars, c: SolverConstraints, setup: Option<array3<int>>,
                     machines: seq<nat>)
    requires Indexed(d) && ModesKnown(d, v) && SetupMatrix(d, c, setup) && AllMachines(d, machines)
    modifies m, s
    ensures m.log == old(m.log) + CircuitRecords(d, v, c, old(s.active), machines, |machines|)
    ensures s.active == old(s.active) + CircuitActivated(d, c, machines, |machines|)
    ensures m.next == old(m.next) && m.hints == old(m.hints) && m.objective == old(m.objective)
  {
    ghost var log0 := m.log;
    ghost var active0 := s.active;
    var i := 0;
    while i < |machines|
      invariant i <= |machines|
      invariant SetupMatrix(d, c, setup)
      invariant m.log == log0 + CircuitRecords(d, v, c, active0, machines, i)
      invariant s.active == active0 + CircuitActivated(d, c, machines, i)
      invariant m.next == old(m.next) && m.hints == old(m.hints) && m.objective == old(m.objective)
    {
      CircuitMachine(m, s, d, v, c, setup, machines, i, log0, active0);
      i := i + 1;
    }
  }

  /** One turn of the loop over the machines. */
  method CircuitMachine(m: Model, s: Sequences, d: SolverData, v: Vars, c: SolverConstraints, setup: Option<array3<int>>,
                        machines: seq<nat>, i: nat, ghost log0: seq<Record>, ghost active0: set<int>)
    requires Indexed(d) && ModesKnown(d, v) && SetupMatrix(d, c, setup)
    requires AllMachines(d, machines) && i < |machines|
    requires m.log == log0 + CircuitRecords(d, v, c, active0, machines, i)
    requires s.active == active0 + CircuitActivated(d, c, machines, i)
    modifies m, s
    ensures m.log == log0 + CircuitRecords(d, v, c, active0, machines, i + 1)
    ensures s.active == active0 + CircuitActivated(d, c, machines, i + 1)
    ensures m.next == old(m.next) && m.hints == old(m.hints) && m.objective == old(m.objective)
  {
    var r := machines[i];
    ActivateMachine(s, d, c, setup, machines, i, active0);
    if r in s.active {
      ResTasksKnown(d, v, r);
      AddMachineCircuit(m, d, v, c, setup, r, ResTasks(d, r));
    }
    AppendAssoc(log0, CircuitRecords(d, v, c, active0, machines, i), MachineBlock(d, v, c, active0, r));
    CircuitRecordsStep(d, v, c, active0, machines, i);
  }

  lemma {:induction false} CircuitRecordsStep(d: SolverData, v: Vars, c: SolverConstraints, active0: set<int>,
                                              machines: seq<nat>, n: nat)
    requires Indexed(d) && ModesKnown(d, v) && n < |machines| && AllMachines(d, machines)
    ensures CircuitRecords(d, v, c, active0, machines, n + 1)
            == CircuitRecords(d, v, c, active0, machines, n) + MachineBlock(d, v, c, active0, machines[n])
  {
  }

  /** The two activation tests of one machine. */
  method ActivateMachine(s: Sequences, d: SolverData, c: SolverConstraints, setup: Option<array3<int>>,
                         machines: seq<nat>, i: nat, ghost active0: set<int>)
    requires AllMachines(d, machines) && i < |machines| && SetupMatrix(d, c, setup)
    requires s.active == active0 + CircuitActivated(d, c, machines, i)
    modifies s
    ensures s.active == active0 + CircuitActivated(d, c, machines, i + 1)
    ensures machines[i] in s.active <==> machines[i] in active0 || Activates(d, c, machines[i])
  {
    var r := machines[i];
    var any := false;
    if setup.Some? {
      any := AnyNonzero(setup.value, r);
    }
    assert any <==> HasSetup(c, r, |d.tasks|);
    if any {
      s.Activate(r);
    }
    if d.resources[r].noIdle {
      s.Activate(r);
    }
    CircuitActivatedIn(d, c, machines, i, r);
  }

  /** The records of one active machine, in the source's loop order. */
  method AddMachineCircuit(m: Model, d: SolverData, v: Vars, c: SolverConstraints, setup: Option<array3<int>>,
                           r: nat, ts: seq<int>)
    requires IsMachine(d, r) && SetupMatrix(d, c, setup) && TasksAssigned(v, r, ts)
    requires forall i :: 0 <= i < |ts| ==> 0 <= ts[i] < |d.tasks|
    modifies m
    ensures m.log == old(m.log) + MachineCircuit(v, c, r, d.resources[r].noIdle, ts)
    ensures m.next == old(m.next) && m.hints == old(m.hints) && m.objective == old(m.objective)
  {
    var noIdle := d.resources[r].noIdle;
    ghost var log0 := m.log;
    m.Add(Circuit(v.graph(r)));
    var k := 0;
    while k < |ts|
      invariant k <= |ts|
      invariant m.log == log0 + [Circuit(v.graph(r))] + TasksRows(v, c, r, noIdle, ts, k)
      invariant m.next == old(m.next) && m.hints == old(m.hints) && m.objective == old(m.objective)
    {
      AddTaskRows(m, d, v, c, setup, r, noIdle, ts[k], ts);
      AppendAssoc(log0 + [Circuit(v.graph(r))], TasksRows(v, c, r, noIdle, ts, k), TaskRows(v, c, r, noIdle, ts[k], ts));
      k := k + 1;
    }
    AppendAssoc(log0, [Circuit(v.graph(r))], TasksRows(v, c, r, noIdle, ts, |ts|));
  }

  method AddTaskRows(m: Model, d: SolverData, v: Vars, c: SolverConstraints, setup: Option<array3<int>>,
                     r: nat, noIdle: bool, t1: int, ts: seq<int>)
    requires r < |d.resources| && SetupMatrix(d, c, setup) && TasksAssigned(v, r, ts) && (t1, r) in v.assign
    requires forall i :: 0 <= i < |ts| ==> 0 <= ts[i] < |d.tasks|
    requires 0 <= t1 < |d.tasks|
    modifies m
    ensures m.log == old(m.log) + TaskRows(v, c, r, noIdle, t1, ts)
    ensures m.next == old(m.next) && m.hints == old(m.hints) && m.objective == old(m.objective)
  {
    ghost var log0 := m.log;
    m.Add(LoopRow(v, r, t1));
    m.Add(DummyRow(v, r, t1));
    ghost var head := log0 + [LoopRow(v, r, t1), DummyRow(v, r, t1)];
    var k := 0;
    while k < |ts|
      invariant k <= |ts|
      invariant m.log == head + ArcRows(v, c, r, noIdle, t1, ts, k)
      invariant m.next == old(m.next) && m.hints == old(m.hints) && m.objective == old(m.objective)
    {
      AddArcRows(m, d, v, c, setup, r, noIdle, t1, ts, k, head);
      k := k + 1;
    }
    AppendAssoc(log0, [LoopRow(v, r, t1), DummyRow(v, r, t1)], ArcRows(v, c, r, noIdle, t1, ts, |ts|));
  }

  /** One turn of the inner loop: the three records of the arc from `t1` to `ts[k]`, unless that is `t1` itself. */
  method AddArcRows(m: Model, d: SolverData, v: Vars, c: SolverConstraints, setup: Option<array3<int>>,
                    r: nat, noIdle: bool, t1: int, ts: seq<int>, k: nat, ghost head: seq<Record>)
    requires r < |d.resources| && SetupMatrix(d, c, setup) && TasksAssigned(v, r, ts) && (t1, r) in v.assign
    requires forall i :: 0 <= i < |ts| ==> 0 <= ts[i] < |d.tasks|
    requires 0 <= t1 < |d.tasks| && k < |ts|
    requires m.log == head + ArcRows(v, c, r, noIdle, t1, ts, k)
    modifies m
    ensures m.log == head + ArcRows(v, c, r, noIdle, t1, ts, k + 1)
    ensures m.next == old(m.next) && m.hints == old(m.hints) && m.objective == old(m.objective)
  {
    var t2 := ts[k];
    if t2 != t1 {
      var st := if setup.Some? then setup.value[r, t1, t2] else 0;
      assert st == LastSetup(c.setupTimes, r, t1, t2);
      var a1 := v.assign[(t1, r)];
      var a2 := v.assign[(t2, r)];
      ghost var x := m.log;
      m.Add(Linear([], Bool(v.arc(r, t1, t2)), Le, Bool(a1.present)));
      m.Add(Linear([], Bool(v.arc(r, t1, t2)), Le, Bool(a2.present)));
      m.Add(Linear([v.arc(r, t1, t2)], Plus(Value(a1.end), Num(st)), if noIdle then Eq else Le, Value(a2.start)));
      assert m.log == x + PairRows(v, c, r, noIdle, t1, t2);
      AppendAssoc(head, ArcRows(v, c, r, noIdle, t1, ts, k), PairRows(v, c, r, noIdle, t1, t2));
    }
    assert ArcRows(v, c, r, noIdle, t1, ts, k + 1)
           == ArcRows(v, c, r, noIdle, t1, ts, k) + (if t2 == t1 then [] else PairRows(v, c, r, noIdle, t1, t2));
  }

  lemma {:induction false} ArcRowsContain(v: Vars, c: SolverConstraints, r: int, noIdle: bool, t1: int, ts: seq<int>,
                                          k: nat, j: nat, rec: Record)
    requires TasksAssigned(v, r, ts) && (t1, r) in v.assign && j < k <= |ts| && ts[j] != t1
    requires rec in PairRows(v, c, r, noIdle, t1, ts[j])
    ensures rec in ArcRows(v, c, r, noIdle, t1, ts, k)
  {
    if j < k - 1 {
      ArcRowsContain(v, c, r, noIdle, t1, ts, k - 1, j, rec);
    }
  }

  function TaskBlocks(v: Vars, c: SolverConstraints, r: int, noIdle: bool, ts: seq<int>, k: nat): (bs: seq<seq<Record>>)
    requires TasksAssigned(v, r, ts) && k <= |ts|
    ensures |bs| == k && forall i :: 0 <= i < k ==> bs[i] == TaskRows(v, c, r, noIdle, ts[i], ts)
  {
    seq(k, i requires 0 <= i < k => TaskRows(v, c, r, noIdle, ts[i], ts))
  }

  lemma {:induction false} TasksRowsFlat(v: Vars, c: SolverConstraints, r: int, noIdle: bool, ts: seq<int>, k: nat)
    requires TasksAssigned(v, r, ts) && k <= |ts|
    ensures TasksRows(v, c, r, noIdle, ts, k) == Flatten(TaskBlocks(v, c, r, noIdle, ts, k))
  {
    if k > 0 {
      TasksRowsFlat(v, c, r, noIdle, ts, k - 1);
      TasksRowsStep(v, c, r, noIdle, ts, k);
      TaskBlocksPrefix(v, c, r, noIdle, ts, k);
      FlattenStep(TaskBlocks(v, c, r, noIdle, ts, k - 1), TaskRows(v, c, r, noIdle, ts[k - 1], ts));
    }
  }

  lemma {:induction false} TasksRowsStep(v: Vars, c: SolverConstraints, r: int, noIdle: bool, ts: seq<int>, k: nat)
    requires TasksAssigned(v, r, ts) && 0 < k <= |ts|
    ensures TasksRows(v, c, r, noIdle, ts, k) == TasksRows(v, c, r, noIdle, ts, k - 1) + TaskRows(v, c, r, noIdle, ts[k - 1], ts)
  {
  }

  lemma {:induction false} TaskBlocksPrefix(v: Vars, c: SolverConstraints, r: int, noIdle: bool, ts: seq<int>, k: nat)
    requires TasksAssigned(v, r, ts) && 0 < k <= |ts|
    ensures TaskBlocks(v, c, r, noIdle, ts, k) == TaskBlocks(v, c, r, noIdle, ts, k - 1) + [TaskRows(v, c, r, noIdle, ts[k - 1], ts)]
  {
    assert TaskBlocks(v, c, r, noIdle, ts, k)[..k - 1] == TaskBlocks(v, c, r, noIdle, ts, k - 1);
  }

  lemma {:induction false} TasksRowsContain(v: Vars, c: SolverConstraints, r: int, noIdle: bool, ts: seq<int>, i: nat, rec: Record)
    requires TasksAssigned(v, r, ts) && i < |ts|
    requires rec in TaskRows(v, c, r, noIdle, ts[i], ts)
    ensures rec in TasksRows(v, c, r, noIdle, ts, |ts|)
  {
    TasksRowsFlat(v, c, r, noIdle, ts, |ts|);
    FlattenMember(TaskBlocks(v, c, r, noIdle, ts, |ts|), i, rec);
  }

  function MachineBlocks(d: SolverData, v: Vars, c: SolverConstraints, active0: set<int>, machines: seq<nat>, n: nat)
    : (r: seq<seq<Record>>)
    requires Indexed(d) && ModesKnown(d, v) && n <= |machines|
    requires AllMachines(d, machines)
    ensures |r| == n && forall k :: 0 <= k < n ==> r[k] == MachineBlock(d, v, c, active0, machines[k])
  {
    seq(n, k requires 0 <= k < n => MachineBlock(d, v, c, active0, machines[k]))
  }

  lemma {:induction false} MachineBlocksPrefix(d: SolverData, v: Vars, c: SolverConstraints, active0: set<int>, machines: seq<nat>, n: nat)
    requires Indexed(d) && ModesKnown(d, v) && 0 < n <= |machines|
    requires AllMachines(d, machines)
    ensures MachineBlocks(d, v, c, active0, machines, n)
            == MachineBlocks(d, v, c, active0, machines, n - 1) + [MachineBlock(d, v, c, active0, machines[n - 1])]
  {
    assert MachineBlocks(d, v, c, active0, machines, n)[..n - 1] == MachineBlocks(d, v, c, active0, machines, n - 1);
  }

  lemma {:induction false} CircuitRecordsFlat(d: SolverData, v: Vars, c: SolverConstraints, active0: set<int>,
                                              machines: seq<nat>, n: nat)
    requires Indexed(d) && ModesKnown(d, v) && n <= |machines|
    requires AllMachines(d, machines)
    ensures CircuitRecords(d, v, c, active0, machines, n) == Flatten(MachineBlocks(d, v, c, active0, machines, n))
  {
    if n > 0 {
      CircuitRecordsFlat(d, v, c, active0, machines, n - 1);
      MachineBlocksPrefix(d, v, c, active0, machines, n);
      FlattenStep(MachineBlocks(d, v, c, active0, machines, n - 1), MachineBlock(d, v, c, active0, machines[n - 1]));
    }
  }

  lemma {:induction false} CircuitRecordsContain(d: SolverData, v: Vars, c: SolverConstraints, active0: set<int>,
                              machines: seq<nat>, i: nat, rec: Record)
    requires Indexed(d) && ModesKnown(d, v) && i < |machines|
    requires AllMachines(d, machines)
    requires rec in MachineBlock(d, v, c, active0, machines[i])
    ensures rec in CircuitRecords(d, v, c, active0, machines, |machines|)
  {
    CircuitRecordsFlat(d, v, c, active0, machines, |machines|);
    FlattenMember(MachineBlocks(d, v, c, active0, machines, |machines|), i, rec);
  }

  /** Machine `r` gets a circuit: its sequence was active on entry or this builder activates it. */
  predicate CircuitOn(d: SolverData, c: SolverConstraints, active0: set<int>, r: int)
  {
    IsMachine(d, r) && (r in active0 || Activates(d, c, r))
  }

  /** A record of task `t1`'s rows on an active machine holds. */
  lemma {:induction false} TaskRecordHolds(d: SolverData, v: Vars, c: SolverConstraints, active0: set<int>, val: Valuation,
                        r: int, t1: int, rec: Record)
    requires Indexed(d) && ModesKnown(d, v) && CircuitOn(d, c, active0, r)
    requires Satisfies(CircuitRecords(d, v, c, active0, MachineIdcs(d), |MachineIdcs(d)|), val)
    requires t1 in ResTasks(d, r)
    requires TasksAssigned(v, r, ResTasks(d, r)) && rec in TaskRows(v, c, r, d.resources[r].noIdle, t1, ResTasks(d, r))
    ensures Holds(rec, val)
  {
    var ts := ResTasks(d, r);
    ResTasksKnown(d, v, r);
    var i :| 0 <= i < |ts| && ts[i] == t1;
    TasksRowsContain(v, c, r, d.resources[r].noIdle, ts, i, rec);
    MachineBlockContained(d, v, c, active0, r, rec);
    SatisfiesMember(CircuitRecords(d, v, c, active0, MachineIdcs(d), |MachineIdcs(d)|), rec, val);
  }

  /** The records of an active machine's block are among the circuit records. */
  lemma {:induction false} MachineBlockContained(d: SolverData, v: Vars, c: SolverConstraints, active0: set<int>, r: int,
                                                 rec: Record)
    requires Indexed(d) && ModesKnown(d, v) && CircuitOn(d, c, active0, r)
    requires rec in MachineBlock(d, v, c, active0, r)
    ensures rec in CircuitRecords(d, v, c, active0, MachineIdcs(d), |MachineIdcs(d)|)
  {
    var machines := MachineIdcs(d);
    var k :| 0 <= k < |machines| && machines[k] == r;
    CircuitRecordsContain(d, v, c, active0, machines, k, rec);
  }

  /** A machine that gets a circuit has the circuit record over its arcs. */
  lemma {:induction false} CircuitAdded(d: SolverData, v: Vars, c: SolverConstraints, active0: set<int>, r: int)
    requires Indexed(d) && ModesKnown(d, v) && CircuitOn(d, c, active0, r)
    ensures Circuit(v.graph(r)) in CircuitRecords(d, v, c, active0, MachineIdcs(d), |MachineIdcs(d)|)
  {
    ResTasksKnown(d, v, r);
    assert Circuit(v.graph(r)) in MachineBlock(d, v, c, active0, r);
    MachineBlockContained(d, v, c, active0, r, Circuit(v.graph(r)));
  }

  lemma {:induction false} NegateValue(l: Lit, val: Valuation)
    requires IsBool(val, l)
    ensures Eval(Bool(Negate(l)), val) == if LitTrue(l, val) then 0 else 1
  {
  }

  /** On an active machine a task's loop arc is selected exactly when the task is absent from it. */
  lemma {:induction false} CircuitLoopMeaning(d: SolverData, v: Vars, c: SolverConstraints, active0: set<int>, val: Valuation, r: int, t: int)
    requires Indexed(d) && ModesKnown(d, v) && CircuitOn(d, c, active0, r) && AssignBool(v, val)
    requires Satisfies(CircuitRecords(d, v, c, active0, MachineIdcs(d), |MachineIdcs(d)|), val)
    requires t in ResTasks(d, r) && IsBool(val, v.arc(r, t, t))
    ensures LitTrue(v.arc(r, t, t), val) <==> !Assigned(v, val, t, r)
  {
    ResTasksKnown(d, v, r);
    TaskRecordHolds(d, v, c, active0, val, r, t, LoopRow(v, r, t));
    LoopRowMeaning(v, val, r, t);
  }

  /** `loop == ~present`: the loop arc is selected exactly when the task is absent. */
  lemma {:induction false} LoopRowMeaning(v: Vars, val: Valuation, r: int, t: int)
    requires (t, r) in v.assign && IsBool(val, Present(v, r, t)) && IsBool(val, v.arc(r, t, t))
    requires Holds(LoopRow(v, r, t), val)
    ensures LitTrue(v.arc(r, t, t), val) <==> !LitTrue(Present(v, r, t), val)
  {
    BoolValue(v.arc(r, t, t), val);
    NegateValue(Present(v, r, t), val);
  }

  /** Selecting the dummy loop of an active machine leaves every task absent from it. */
  lemma {:induction false} CircuitDummyMeaning(d: SolverData, v: Vars, c: SolverConstraints, active0: set<int>, val: Valuation, r: int, t: int)
    requires Indexed(d) && ModesKnown(d, v) && CircuitOn(d, c, active0, r) && AssignBool(v, val)
    requires Satisfies(CircuitRecords(d, v, c, active0, MachineIdcs(d), |MachineIdcs(d)|), val)
    requires t in ResTasks(d, r) && LitTrue(v.arc(r, Dummy, Dummy), val)
    ensures !Assigned(v, val, t, r)
  {
    ResTasksKnown(d, v, r);
    TaskRecordHolds(d, v, c, active0, val, r, t, DummyRow(v, r, t));
    DummyRowMeaning(v, val, r, t);
  }

  /** `dummy_loop <= ~present` with the dummy loop selected: the task is absent. */
  lemma {:induction false} DummyRowMeaning(v: Vars, val: Valuation, r: int, t: int)
    requires (t, r) in v.assign && IsBool(val, Present(v, r, t))
    requires Holds(DummyRow(v, r, t), val) && LitTrue(v.arc(r, Dummy, Dummy), val)
    ensures !LitTrue(Present(v, r, t), val)
  {
    NegateValue(Present(v, r, t), val);
    assert Eval(Bool(v.arc(r, Dummy, Dummy)), val) == 1;
  }

  /** The three records of the arc from `t1` to `t2` hold. */
  lemma {:induction false} PairRowsHold(d: SolverData, v: Vars, c: SolverConstraints, active0: set<int>, val: Valuation,
                     r: int, t1: int, t2: int)
    requires Indexed(d) && ModesKnown(d, v) && CircuitOn(d, c, active0, r)
    requires Satisfies(CircuitRecords(d, v, c, active0, MachineIdcs(d), |MachineIdcs(d)|), val)
    requires t1 in ResTasks(d, r) && t2 in ResTasks(d, r) && t1 != t2
    requires (t1, r) in v.assign && (t2, r) in v.assign
    ensures var noIdle := d.resources[r].noIdle;
            && Holds(ArcRow(v, r, t1, t2, t1), val) && Holds(ArcRow(v, r, t1, t2, t2), val)
            && Holds(SetupRow(v, c, r, noIdle, t1, t2), val)
  {
    var ts := ResTasks(d, r);
    var noIdle := d.resources[r].noIdle;
    ResTasksKnown(d, v, r);
    var j :| 0 <= j < |ts| && ts[j] == t2;
    ArcRowsContain(v, c, r, noIdle, t1, ts, |ts|, j, ArcRow(v, r, t1, t2, t1));
    TaskRecordHolds(d, v, c, active0, val, r, t1, ArcRow(v, r, t1, t2, t1));
    ArcRowsContain(v, c, r, noIdle, t1, ts, |ts|, j, ArcRow(v, r, t1, t2, t2));
    TaskRecordHolds(d, v, c, active0, val, r, t1, ArcRow(v, r, t1, t2, t2));
    ArcRowsContain(v, c, r, noIdle, t1, ts, |ts|, j, SetupRow(v, c, r, noIdle, t1, t2));
    TaskRecordHolds(d, v, c, active0, val, r, t1, SetupRow(v, c, r, noIdle, t1, t2));
  }

  /** What the three records of a selected arc say. */
  lemma {:induction false} PairRowsMeaning(v: Vars, c: SolverConstraints, val: Valuation, r: int, noIdle: bool, t1: int, t2: int)
    requires (t1, r) in v.assign && (t2, r) in v.assign && AssignBool(v, val)
    requires Holds(ArcRow(v, r, t1, t2, t1), val) && Holds(ArcRow(v, r, t1, t2, t2), val)
    requires Holds(SetupRow(v, c, r, noIdle, t1, t2), val)
    requires LitTrue(v.arc(r, t1, t2), val)
    ensures Assigned(v, val, t1, r) && Assigned(v, val, t2, r)
    ensures var e := val(v.assign[(t1, r)].end) + LastSetup(c.setupTimes, r, t1, t2);
            var b := val(v.assign[(t2, r)].start);
            if noIdle then e == b else e <= b
  {
    BoolValue(Present(v, r, t1), val);
    BoolValue(Present(v, r, t2), val);
    assert AllTrue([v.arc(r, t1, t2)], val);
    var lhs := Plus(Value(v.assign[(t1, r)].end), Num(LastSetup(c.setupTimes, r, t1, t2)));
    var rhs := Value(v.assign[(t2, r)].start);
    assert Eval(lhs, val) == val(v.assign[(t1, r)].end) + LastSetup(c.setupTimes, r, t1, t2);
    assert Eval(rhs, val) == val(v.assign[(t2, r)].start);
    if noIdle {
      assert Compare(Eq, Eval(lhs, val), Eval(rhs, val));
    } else {
      assert Compare(Le, Eval(lhs, val), Eval(rhs, val));
    }
  }

  /**
   * A selected arc between two tasks of an active machine puts both on the
   * machine and the second after the first plus the setup time; on a
   * no-idle machine exactly then.
   */
  lemma {:induction false} CircuitArcMeaning(d: SolverData, v: Vars, c: SolverConstraints, active0: set<int>, val: Valuation,
                          r: int, t1: int, t2: int)
    requires Indexed(d) && ModesKnown(d, v) && CircuitOn(d, c, active0, r) && AssignBool(v, val)
    requires Satisfies(CircuitRecords(d, v, c, active0, MachineIdcs(d), |MachineIdcs(d)|), val)
    requires t1 in ResTasks(d, r) && t2 in ResTasks(d, r) && t1 != t2
    requires LitTrue(v.arc(r, t1, t2), val)
    ensures Assigned(v, val, t1, r) && Assigned(v, val, t2, r)
    ensures var e := val(v.assign[(t1, r)].end) + LastSetup(c.setupTimes, r, t1, t2);
            var b := val(v.assign[(t2, r)].start);
            if d.resources[r].noIdle then e == b else e <= b
  {
    ResTasksKnown(d, v, r);
    assert (t1, r) in v.assign && (t2, r) in v.assign;
    PairRowsHold(d, v, c, active0, val, r, t1, t2);
    PairRowsMeaning(v, c, val, r, d.resources[r].noIdle, t1, t2);
  }
}
