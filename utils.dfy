/**
 * `pyjobshop/utils.py`: the smallest and largest recorded processing time of
 * every task, used to tighten the duration bounds of its interval variable.
 * The processing times are a dictionary keyed by (machine, task).
 */
module Utils {
  import opened Wrappers

  /** Python's `durations[task]` on a list of `n` entries: negative indices count from the end. */
  function Slot(task: int, n: nat): (r: Option<nat>)
    ensures r.Some? <==> -(n as int) <= task < n
    ensures r.Some? ==> r.value < n && (r.value == task || r.value == n + task)
  {
    if 0 <= task < n then Some(task) else if -(n as int) <= task < 0 then Some(n + task) else None
  }

  /** The durations recorded for slot `t`, under any machine. */
  function RecordedDurations(processingTimes: map<(int, int), int>, numTasks: nat, t: int): set<int>
  {
    set k | k in processingTimes && Slot(k.1, numTasks) == Some(t) :: processingTimes[k]
  }

  function SeqMin(s: seq<int>): (m: int)
    requires |s| > 0
    ensures m in s && forall i :: 0 <= i < |s| ==> m <= s[i]
  {
    if |s| == 1 then s[0] else var rest := SeqMin(s[1..]); if s[0] <= rest then s[0] else rest
  }

  function SeqMax(s: seq<int>): (m: int)
    requires |s| > 0
    ensures m in s && forall i :: 0 <= i < |s| ==> s[i] <= m
  {
    if |s| == 1 then s[0] else var rest := SeqMax(s[1..]); if s[0] >= rest then s[0] else rest
  }

  /**
   * The `IndexError` of a key whose task is no index of the list, and the
   * `ValueError` of `min` on an empty list, for the first task without a
   * recorded duration.
   */
  datatype DurationError = TaskOutOfRange(key: int) | NoDurations(task: nat)

  /** Every key's task indexes the per-task list. */
  predicate TasksIndexable(processingTimes: map<(int, int), int>, numTasks: nat)
  {
    forall k :: k in processingTimes ==> Slot(k.1, numTasks).Some?
  }

  /**
   * `compute_min_max_durations`: collects the durations per task (the second
   * component of each key, a negative one counting from the end), then takes
   * the minimum and the maximum of each task's list. A key whose task is
   * outside `-num_tasks .. num_tasks - 1` fails while collecting; otherwise
   * the first task without any recorded duration fails.
   */
  method ComputeMinMaxDurations(processingTimes: map<(int, int), int>, numTasks: nat)
    returns (r: Result<(seq<int>, seq<int>), DurationError>)
    ensures r.Ok? <==> TasksIndexable(processingTimes, numTasks)
                       && forall t :: 0 <= t < numTasks ==> RecordedDurations(processingTimes, numTasks, t) != {}
    ensures r.Ok? ==>
              var (mins, maxs) := r.value;
              |mins| == numTasks && |maxs| == numTasks &&
              forall t :: 0 <= t < numTasks ==>
                && mins[t] in RecordedDurations(processingTimes, numTasks, t)
                && maxs[t] in RecordedDurations(processingTimes, numTasks, t)
                && forall d :: d in RecordedDurations(processingTimes, numTasks, t) ==> mins[t] <= d <= maxs[t]
    ensures r.Err? && r.error.TaskOutOfRange? <==> !TasksIndexable(processingTimes, numTasks)
    ensures r.Err? && r.error.TaskOutOfRange? ==>
              exists k :: k in processingTimes && k.1 == r.error.key && Slot(k.1, numTasks).None?
    ensures r.Err? && r.error.NoDurations? ==>
              && r.error.task < numTasks && RecordedDurations(processingTimes, numTasks, r.error.task) == {}
              && forall t :: 0 <= t < r.error.task ==> RecordedDurations(processingTimes, numTasks, t) != {}
  {
    var durations: seq<seq<int>> := seq(numTasks, _ => []);
    var todo := processingTimes.Keys;
    while todo != {}
      invariant todo <= processingTimes.Keys
      invariant |durations| == numTasks
      invariant forall k :: k in processingTimes && k !in todo ==> Slot(k.1, numTasks).Some?
      invariant forall t, d :: 0 <= t < numTasks ==>
                  (d in durations[t] <==> exists k :: k in processingTimes && k !in todo
                                                      && Slot(k.1, numTasks) == Some(t) && processingTimes[k] == d)
      decreases |todo|
    {
      var key: (int, int) :| key in todo;
      var slot := Slot(key.1, numTasks);
      if slot.None? {
        return Err(TaskOutOfRange(key.1));
      }
      var task := slot.value;
      durations := durations[task := durations[task] + [processingTimes[key]]];
      todo := todo - {key};
    }
    assert forall t, d :: 0 <= t < numTasks ==> (d in durations[t] <==> d in RecordedDurations(processingTimes, numTasks, t));

    var t := 0;
    while t < numTasks
      invariant t <= numTasks
      invariant forall u :: 0 <= u < t ==> |durations[u]| > 0 && RecordedDurations(processingTimes, numTasks, u) != {}
    {
      if durations[t] == [] {
        assert forall d :: d !in RecordedDurations(processingTimes, numTasks, t);
        assert RecordedDurations(processingTimes, numTasks, t) == {};
        return Err(NoDurations(t));
      }
      assert durations[t][0] in RecordedDurations(processingTimes, numTasks, t);
      t := t + 1;
    }
    var mins := seq(numTasks, u requires 0 <= u < numTasks => SeqMin(durations[u]));
    var maxs := seq(numTasks, u requires 0 <= u < numTasks => SeqMax(durations[u]));
    return Ok((mins, maxs));
  }
}
