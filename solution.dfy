/**
 * The solution representation of `pyjobshop/Solution.py`: a schedule of
 * operations, each on a machine with a start time and a duration, checked
 * against the machines every operation may use (`op2machines`).
 */
module Solution {
  import opened Wrappers

  datatype ScheduledOperation = ScheduledOperation(operation: int, machine: int, start: int, duration: int)

  /** `ScheduledOperation.__eq__` compares all four fields. */
  predicate ScheduledEquals(a: ScheduledOperation, b: ScheduledOperation)
    ensures ScheduledEquals(a, b) <==> a == b
  {
    a.operation == b.operation && a.machine == b.machine && a.start == b.start && a.duration == b.duration
  }

  datatype Solution = Solution(schedule: seq<ScheduledOperation>)

  /** `Solution.__eq__` compares the schedules. */
  predicate SolutionEquals(a: Solution, b: Solution)
    ensures SolutionEquals(a, b) <==> a == b
  {
    a.schedule == b.schedule
  }

  /** The `ValueError` for a disallowed machine, and the `IndexError` of an unknown operation index. */
  datatype SolutionError = NotAllowed(operation: int, machine: int) | OperationOutOfRange(operation: int)

  /** Python list indexing: negative indices count from the end. */
  function PyIndex<T>(s: seq<T>, i: int): (r: Option<T>)
    ensures r.Some? <==> -|s| <= i < |s|
    ensures 0 <= i < |s| ==> r == Some(s[i])
    ensures -|s| <= i < 0 ==> r == Some(s[|s| + i])
  {
    if 0 <= i < |s| then Some(s[i]) else if -|s| <= i < 0 then Some(s[|s| + i]) else None
  }

  /** The machines allowed for the operation, when the operation index can be looked up. */
  predicate Allowed(op2machines: seq<seq<int>>, so: ScheduledOperation)
  {
    var ms := PyIndex(op2machines, so.operation);
    ms.Some? && so.machine in ms.value
  }

  /** The error `_validate` raises for the schedule entries from `i` on, if any. */
  function FirstViolation(op2machines: seq<seq<int>>, schedule: seq<ScheduledOperation>, i: nat): Option<SolutionError>
    requires i <= |schedule|
    decreases |schedule| - i
  {
    if i == |schedule| then None
    else
      var so := schedule[i];
      match PyIndex(op2machines, so.operation)
      case None => Some(OperationOutOfRange(so.operation))
      case Some(ms) => if so.machine !in ms then Some(NotAllowed(so.operation, so.machine))
                       else FirstViolation(op2machines, schedule, i + 1)
  }

  lemma {:induction false} FirstViolationNone(op2machines: seq<seq<int>>, schedule: seq<ScheduledOperation>, i: nat)
    requires i <= |schedule|
    ensures FirstViolation(op2machines, schedule, i).None?
            <==> forall k :: i <= k < |schedule| ==> Allowed(op2machines, schedule[k])
    decreases |schedule| - i
  {
    if i < |schedule| {
      FirstViolationNone(op2machines, schedule, i + 1);
    }
  }

  /** A reported error names the first entry that is not allowed. */
  lemma {:induction false} FirstViolationIsFirst(op2machines: seq<seq<int>>, schedule: seq<ScheduledOperation>, i: nat)
    requires i <= |schedule| && FirstViolation(op2machines, schedule, i).Some?
    ensures exists k :: i <= k < |schedule| && !Allowed(op2machines, schedule[k])
                        && (forall j :: i <= j < k ==> Allowed(op2machines, schedule[j]))
                        && FirstViolation(op2machines, schedule, i).value.operation == schedule[k].operation
    decreases |schedule| - i
  {
    if Allowed(op2machines, schedule[i]) {
      FirstViolationIsFirst(op2machines, schedule, i + 1);
    }
  }

  /** `Solution._validate`: the loop over the schedule, raising on the first disallowed entry. */
  method Validate(op2machines: seq<seq<int>>, schedule: seq<ScheduledOperation>) returns (r: Option<SolutionError>)
    ensures r == FirstViolation(op2machines, schedule, 0)
    ensures r.None? <==> forall k :: 0 <= k < |schedule| ==> Allowed(op2machines, schedule[k])
  {
    FirstViolationNone(op2machines, schedule, 0);
    var i := 0;
    while i < |schedule|
      invariant 0 <= i <= |schedule|
      invariant FirstViolation(op2machines, schedule, 0) == FirstViolation(op2machines, schedule, i)
    {
      var scheduled := schedule[i];
      var op := scheduled.operation;
      var machine := scheduled.machine;
      if !(-|op2machines| <= op < |op2machines|) {
        return Some(OperationOutOfRange(op));
      }
      var allowed := if op >= 0 then op2machines[op] else op2machines[|op2machines| + op];
      if machine !in allowed {
        return Some(NotAllowed(op, machine));
      }
      i := i + 1;
    }
    return None;
  }

  /** `Solution.__init__`: the schedule is kept when every entry is allowed. */
  function NewSolution(op2machines: seq<seq<int>>, schedule: seq<ScheduledOperation>): (r: Result<Solution, SolutionError>)
    ensures r.Ok? <==> forall k :: 0 <= k < |schedule| ==> Allowed(op2machines, schedule[k])
    ensures r.Ok? ==> r.value.schedule == schedule
  {
    FirstViolationNone(op2machines, schedule, 0);
    match FirstViolation(op2machines, schedule, 0)
    case None => Ok(Solution(schedule))
    case Some(e) => Err(e)
  }
}
