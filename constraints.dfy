/**
 * The constraint container of `pyjobshop/Constraints.py`: eleven lists of
 * task-pair records and one list of setup-time records.
 */
module Constraints {
  import opened Wrappers

  /** The `(task1, task2)` named tuples (`StartAtStart`, ..., `Consecutive`). */
  datatype TaskPair = TaskPair(task1: int, task2: int)

  /** The `SetupTime` named tuple. */
  datatype SetupTime = SetupTime(resource: int, task1: int, task2: int, duration: int)

  datatype Constraints = Constraints(
    startAtStart: seq<TaskPair>,
    startAtEnd: seq<TaskPair>,
    startBeforeStart: seq<TaskPair>,
    startBeforeEnd: seq<TaskPair>,
    endAtStart: seq<TaskPair>,
    endAtEnd: seq<TaskPair>,
    endBeforeStart: seq<TaskPair>,
    endBeforeEnd: seq<TaskPair>,
    identicalResources: seq<TaskPair>,
    differentResources: seq<TaskPair>,
    consecutive: seq<TaskPair>,
    setupTimes: seq<SetupTime>)

  /** Python's `x or []` on an optional list: both `None` and `[]` give `[]`. */
  function OrEmpty<T>(x: Option<seq<T>>): (r: seq<T>)
    ensures x.None? ==> r == []
    ensures x.Some? ==> r == x.value
  {
    if x.Some? && x.value != [] then x.value else []
  }

  /** `Constraints.__init__`: each argument stored as given, an omitted one as `[]`. */
  function NewConstraints(
    startAtStart: Option<seq<TaskPair>> := None,
    startAtEnd: Option<seq<TaskPair>> := None,
    startBeforeStart: Option<seq<TaskPair>> := None,
    startBeforeEnd: Option<seq<TaskPair>> := None,
    endAtStart: Option<seq<TaskPair>> := None,
    endAtEnd: Option<seq<TaskPair>> := None,
    endBeforeStart: Option<seq<TaskPair>> := None,
    endBeforeEnd: Option<seq<TaskPair>> := None,
    identicalResources: Option<seq<TaskPair>> := None,
    differentResources: Option<seq<TaskPair>> := None,
    consecutive: Option<seq<TaskPair>> := None,
    setupTimes: Option<seq<SetupTime>> := None): (c: Constraints)
    ensures c.startAtStart == startAtStart.GetOr([]) && c.startAtEnd == startAtEnd.GetOr([])
    ensures c.startBeforeStart == startBeforeStart.GetOr([]) && c.startBeforeEnd == startBeforeEnd.GetOr([])
    ensures c.endAtStart == endAtStart.GetOr([]) && c.endAtEnd == endAtEnd.GetOr([])
    ensures c.endBeforeStart == endBeforeStart.GetOr([]) && c.endBeforeEnd == endBeforeEnd.GetOr([])
    ensures c.identicalResources == identicalResources.GetOr([])
    ensures c.differentResources == differentResources.GetOr([])
    ensures c.consecutive == consecutive.GetOr([]) && c.setupTimes == setupTimes.GetOr([])
  {
    Constraints(
      OrEmpty(startAtStart), OrEmpty(startAtEnd), OrEmpty(startBeforeStart), OrEmpty(startBeforeEnd),
      OrEmpty(endAtStart), OrEmpty(endAtEnd), OrEmpty(endBeforeStart), OrEmpty(endBeforeEnd),
      OrEmpty(identicalResources), OrEmpty(differentResources), OrEmpty(consecutive), OrEmpty(setupTimes))
  }

  /** `Constraints.__eq__`: list by list. */
  predicate Equals(a: Constraints, b: Constraints)
    ensures Equals(a, b) <==> a == b
  {
    && a.startAtStart == b.startAtStart
    && a.startAtEnd == b.startAtEnd
    && a.startBeforeStart == b.startBeforeStart
    && a.startBeforeEnd == b.startBeforeEnd
    && a.endAtStart == b.endAtStart
    && a.endAtEnd == b.endAtEnd
    && a.endBeforeStart == b.endBeforeStart
    && a.endBeforeEnd == b.endBeforeEnd
    && a.identicalResources == b.identicalResources
    && a.differentResources == b.differentResources
    && a.consecutive == b.consecutive
    && a.setupTimes == b.setupTimes
  }

  /** `Constraints.__len__`: the total number of stored constraints. */
  function Len(c: Constraints): nat
  {
    |c.startAtStart| + |c.startAtEnd| + |c.startBeforeStart| + |c.startBeforeEnd|
    + |c.endAtStart| + |c.endAtEnd| + |c.endBeforeStart| + |c.endBeforeEnd|
    + |c.identicalResources| + |c.differentResources| + |c.consecutive| + |c.setupTimes|
  }

  /** A container is empty exactly when it equals the default container. */
  lemma {:induction false} LenZero(c: Constraints)
    ensures Len(c) == 0 <==> c == NewConstraints()
  {
  }
}
