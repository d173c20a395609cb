/**
 * `Constraints.add_constraints` of the OR-Tools back end: the order in which
 * the constraint builders run, and why that order matters for the circuit
 * constraints, which are only built for sequences that the sequencing
 * constraints (or the machine's setup times and no-idle flag) activated.
 */
module OrBuilder {
  import opened ProblemData
  import opened SolverData
  import opened CpLog
  import opened OrConstraints
  import opened OrSequencing
  import opened OrCircuit
  import opened OrSelection

  /** What the builders demand of the data and the variables. */
  predicate Ready(d: SolverData, v: Vars, c: SolverConstraints)
  {
    && JobsKnown(d, v) && SelectReady(d, v) && BreaksKnown(d, v) && AllTimingsKnown(v, c)
    && SameSequenceMachinesOnly(d, c.sameSequence)
    && Indexed(d) && ModesKnown(d, v) && SetupsIndexed(d, c)
    && DependenciesKnown(v, c.modeDependencies)
    && SelectionsIn(v, c.selectAllOrNone) && SelectionsIn(v, c.selectAtLeastOne) && SelectionsIn(v, c.selectExactlyOne)
  }

  /** The sequences active once the sequencing builders have run. */
  function SequencedActive(d: SolverData, v: Vars, c: SolverConstraints, active0: set<int>): set<int>
  {
    active0 + ConsecutiveMachines(v, c.consecutive, MachineIdcs(d), |c.consecutive|)
    + SameSequenceMachines(c.sameSequence, |c.sameSequence|)
  }

  /** The records of the builders that run before the sequencing ones. */
  function ResourceRecords(d: SolverData, v: Vars, c: SolverConstraints): seq<Record>
    requires Ready(d, v, c)
  {
    JobSpanRecords(d, v, |d.jobs|) + SelectRecords(d, v, |d.tasks|)
    + NoOverlapRecords(v, MachineIdcs(d), |MachineIdcs(d)|)
    + CumulativeRecords(d, v, RenewableIdcs(d), |RenewableIdcs(d)|)
    + TotalDemandRecords(d, v, NonRenewableIdcs(d), |NonRenewableIdcs(d)|)
    + BreakRecords(d, v, |v.tasks|) + TimingConstraintRecords(v, c) + IdenticalAndDifferentRecords(d, v, c)
  }

  /** The records of the sequencing and circuit builders, given the sequences active on entry. */
  function SequencingRecords(d: SolverData, v: Vars, c: SolverConstraints, active0: set<int>): seq<Record>
    requires Ready(d, v, c)
  {
    ConsecutiveRecords(v, c.consecutive, MachineIdcs(d), |c.consecutive|)
    + SameSequenceRecords(d, v, c.sameSequence, |c.sameSequence|)
    + CircuitRecords(d, v, c, SequencedActive(d, v, c, active0), MachineIdcs(d), |MachineIdcs(d)|)
  }

  /** The records of the builders that run after the circuit ones. */
  function SelectionPartRecords(v: Vars, c: SolverConstraints, next0: nat): seq<Record>
    requires DependenciesKnown(v, c.modeDependencies)
    requires SelectionsIn(v, c.selectAllOrNone) && SelectionsIn(v, c.selectAtLeastOne) && SelectionsIn(v, c.selectExactlyOne)
  {
    DependencyRecords(v, c.modeDependencies, |c.modeDependencies|) + TaskSelectionRecords(v, c, next0)
  }

  /** The builders before the sequencing ones, in the order `add_constraints` calls them. */
  method AddResourceConstraints(m: Model, d: SolverData, v: Vars, c: SolverConstraints)
    requires Ready(d, v, c)
    modifies m
    ensures m.log == old(m.log) + ResourceRecords(d, v, c)
    ensures m.next == old(m.next) && m.hints == old(m.hints) && m.objective == old(m.objective)
  {
    ghost var log0 := m.log;
    JobSpansTasks(m, d, v);
    ghost var acc := JobSpanRecords(d, v, |d.jobs|);
    SelectOneMode(m, d, v);
    AppendAssoc(log0, acc, SelectRecords(d, v, |d.tasks|));
    acc := acc + SelectRecords(d, v, |d.tasks|);
    MachinesNoOverlap(m, d, v);
    AppendAssoc(log0, acc, NoOverlapRecords(v, MachineIdcs(d), |MachineIdcs(d)|));
    acc := acc + NoOverlapRecords(v, MachineIdcs(d), |MachineIdcs(d)|);
    RenewableCapacity(m, d, v);
    AppendAssoc(log0, acc, CumulativeRecords(d, v, RenewableIdcs(d), |RenewableIdcs(d)|));
    acc := acc + CumulativeRecords(d, v, RenewableIdcs(d), |RenewableIdcs(d)|);
    NonRenewableCapacity(m, d, v);
    AppendAssoc(log0, acc, TotalDemandRecords(d, v, NonRenewableIdcs(d), |NonRenewableIdcs(d)|));
    acc := acc + TotalDemandRecords(d, v, NonRenewableIdcs(d), |NonRenewableIdcs(d)|);
    ResourceBreaksConstraints(m, d, v);
    AppendAssoc(log0, acc, BreakRecords(d, v, |v.tasks|));
    acc := acc + BreakRecords(d, v, |v.tasks|);
    TimingConstraints(m, v, c);
    AppendAssoc(log0, acc, TimingConstraintRecords(v, c));
    acc := acc + TimingConstraintRecords(v, c);
    IdenticalAndDifferentResourceConstraints(m, d, v, c);
    AppendAssoc(log0, acc, IdenticalAndDifferentRecords(d, v, c));
    acc := acc + IdenticalAndDifferentRecords(d, v, c);
    assert acc == ResourceRecords(d, v, c);
  }

  /** The consecutive, same-sequence and circuit builders; the circuit ones come last. */
  method AddSequencingConstraints(m: Model, s: Sequences, d: SolverData, v: Vars, c: SolverConstraints)
    requires Ready(d, v, c)
    modifies m, s
    ensures m.log == old(m.log) + SequencingRecords(d, v, c, old(s.active))
    ensures s.active == SequencedActive(d, v, c, old(s.active))
                        + CircuitActivated(d, c, MachineIdcs(d), |MachineIdcs(d)|)
    ensures m.next == old(m.next) && m.hints == old(m.hints) && m.objective == old(m.objective)
  {
    ghost var log0 := m.log;
    ConsecutiveConstraints(m, s, d, v, c.consecutive);
    ghost var a := ConsecutiveRecords(v, c.consecutive, MachineIdcs(d), |c.consecutive|);
    SameSequenceConstraints(m, s, d, v, c.sameSequence);
    ghost var b := SameSequenceRecords(d, v, c.sameSequence, |c.sameSequence|);
    AppendAssoc(log0, a, b);
    assert s.active == SequencedActive(d, v, c, old(s.active));
    CircuitConstraints(m, s, d, v, c);
    ghost var e := CircuitRecords(d, v, c, SequencedActive(d, v, c, old(s.active)), MachineIdcs(d), |MachineIdcs(d)|);
    AppendAssoc(log0, a + b, e);
  }

  /** The mode-dependency and task-selection builders. */
  method AddSelectionConstraints(m: Model, v: Vars, c: SolverConstraints)
    requires DependenciesKnown(v, c.modeDependencies)
    requires SelectionsIn(v, c.selectAllOrNone) && SelectionsIn(v, c.selectAtLeastOne) && SelectionsIn(v, c.selectExactlyOne)
    modifies m
    ensures m.log == old(m.log) + SelectionPartRecords(v, c, old(m.next))
    ensures m.next == SelectionAfter(c, old(m.next))
    ensures m.hints == old(m.hints) && m.objective == old(m.objective)
  {
    ghost var log0 := m.log;
    ghost var next0 := m.next;
    ModeDependencies(m, v, c.modeDependencies);
    ghost var a := DependencyRecords(v, c.modeDependencies, |c.modeDependencies|);
    TaskSelectionConstraints(m, v, c);
    AppendAssoc(log0, a, TaskSelectionRecords(v, c, next0));
  }

  /** `Constraints`: the model it adds to, the data, the variables and their sequences. */
  class Builder {
    const model: Model
    const sequences: Sequences
    const data: SolverData
    const vars: Vars
    const constraints: SolverConstraints

    constructor (model: Model, sequences: Sequences, data: SolverData, vars: Vars, constraints: SolverConstraints)
      ensures this.model == model && this.sequences == sequences
      ensures this.data == data && this.vars == vars && this.constraints == constraints
    {
      this.model := model;
      this.sequences := sequences;
      this.data := data;
      this.vars := vars;
      this.constraints := constraints;
    }

    /** `add_constraints`: every builder, the circuit ones after the sequencing ones. */
    method AddConstraints()
      requires Ready(data, vars, constraints)
      modifies model, sequences
      ensures model.log == old(model.log) + ResourceRecords(data, vars, constraints)
                           + SequencingRecords(data, vars, constraints, old(sequences.active))
                           + SelectionPartRecords(vars, constraints, old(model.next))
      ensures sequences.active == SequencedActive(data, vars, constraints, old(sequences.active))
                                  + CircuitActivated(data, constraints, MachineIdcs(data), |MachineIdcs(data)|)
      ensures model.next == SelectionAfter(constraints, old(model.next))
      ensures model.hints == old(model.hints) && model.objective == old(model.objective)
    {
      AddResourceConstraints(model, data, vars, constraints);
      AddSequencingConstraints(model, sequences, data, vars, constraints);
      AddSelectionConstraints(model, vars, constraints);
    }
  }

  /**
   * The reason for the order: a machine that a consecutive or same-sequence
   * constraint touches gets its circuit constraint.
   */
  lemma {:induction false} SequencedMachinesGetCircuits(d: SolverData, v: Vars, c: SolverConstraints, active0: set<int>, r: int)
    requires Ready(d, v, c)
    requires r in ConsecutiveMachines(v, c.consecutive, MachineIdcs(d), |c.consecutive|)
             || r in SameSequenceMachines(c.sameSequence, |c.sameSequence|)
    ensures Circuit(v.graph(r)) in SequencingRecords(d, v, c, active0)
  {
    var active := SequencedActive(d, v, c, active0);
    if r in ConsecutiveMachines(v, c.consecutive, MachineIdcs(d), |c.consecutive|) {
      ConsecutiveMachinesMeaning(d, v, c.consecutive, r);
    } else {
      SameSequenceMachinesIn(c.sameSequence, |c.sameSequence|, r);
      var i :| 0 <= i < |c.sameSequence| && (r == c.sameSequence[i].res1 || r == c.sameSequence[i].res2);
      assert IsMachine(d, r);
    }
    CircuitAdded(d, v, c, active, r);
  }
}
