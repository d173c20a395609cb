/**
 * The mode and resource lookups of `pyjobshop/solvers/utils.py` that the
 * solver back ends share: per-task mode durations, the mode pairs of two tasks
 * with identical, disjoint or intersecting resource sets, and the dense
 * setup-time matrix.
 */
module SolverUtils {
  import opened Wrappers
  import opened ProblemData
  import opened Constraints

  predicate Increasing(s: seq<int>)
  {
    forall i, j :: 0 <= i < j < |s| ==> s[i] < s[j]
  }

  /**
   * The indices of the modes of task `t`, in increasing order: the
   * `[(idx, m) for idx, m in enumerate(data.modes) if m.task == t]` filter.
   */
  function ModesOf(modes: seq<Mode>, t: int): (r: seq<nat>)
    ensures forall k :: 0 <= k < |r| ==> r[k] < |modes| && modes[r[k]].task == t
    ensures forall i {:trigger i in r} :: 0 <= i < |modes| && modes[i].task == t ==> i in r
    ensures Increasing(r)
  {
    if modes == [] then []
    else
      var prefix := modes[..|modes| - 1];
      var rest := ModesOf(prefix, t);
      assert forall k :: 0 <= k < |rest| ==> rest[k] < |prefix|;
      rest + if modes[|modes| - 1].task == t then [|modes| - 1] else []
  }

  /** The candidates that satisfy `keep`, in their original order. */
  function Select(candidates: seq<nat>, keep: nat -> bool): (r: seq<nat>)
    ensures forall x :: x in r <==> x in candidates && keep(x)
    ensures Increasing(candidates) ==> Increasing(r)
  {
    if candidates == [] then []
    else
      var prefix := candidates[..|candidates| - 1];
      var last := candidates[|candidates| - 1];
      var selected := Select(prefix, keep);
      assert candidates == prefix + [last];
      if keep(last) then
        SelectLast(candidates, selected);
        selected + [last]
      else selected
  }

  lemma {:induction false} AppendIncreasing(s: seq<int>, x: int)
    requires Increasing(s) && forall k :: 0 <= k < |s| ==> s[k] < x
    ensures Increasing(s + [x])
  {
  }

  /** Appending the last candidate to a selection from the earlier ones keeps it increasing. */
  lemma {:induction false} SelectLast(candidates: seq<nat>, selected: seq<nat>)
    requires |candidates| > 0 && forall x :: x in selected ==> x in candidates[..|candidates| - 1]
    requires Increasing(candidates) ==> Increasing(selected)
    ensures Increasing(candidates) ==> Increasing(selected + [candidates[|candidates| - 1]])
  {
    if Increasing(candidates) {
      var last := candidates[|candidates| - 1];
      forall k | 0 <= k < |selected| ensures selected[k] < last {
        assert selected[k] in selected;
        var m :| 0 <= m < |candidates| - 1 && candidates[m] == selected[k];
      }
      AppendIncreasing(selected, last);
    }
  }

  function ResourceSet(modes: seq<Mode>, m: nat): set<int>
  {
    if m < |modes| then Elements(modes[m].resources) else {}
  }

  // ------------------------------------------------------ task durations

  /** The durations of the modes `idcs`, in that order. */
  function DurationsOf(modes: seq<Mode>, idcs: seq<nat>): (r: seq<int>)
    requires forall k :: 0 <= k < |idcs| ==> idcs[k] < |modes|
    ensures |r| == |idcs| && forall k :: 0 <= k < |idcs| ==> r[k] == modes[idcs[k]].duration
  {
    seq(|idcs|, k requires 0 <= k < |idcs| => modes[idcs[k]].duration)
  }

  /**
   * `compute_task_durations`: one list per task, list t holding the
   * durations of the modes of task t in mode order.
   */
  method ComputeTaskDurations(modes: seq<Mode>, numTasks: nat) returns (durations: seq<seq<int>>)
    requires forall i :: 0 <= i < |modes| ==> 0 <= modes[i].task < numTasks
    ensures |durations| == numTasks
    ensures forall t :: 0 <= t < numTasks ==> durations[t] == DurationsOf(modes, ModesOf(modes, t))
  {
    durations := seq(numTasks, _ => []);
    var i := 0;
    while i < |modes|
      invariant i <= |modes| && |durations| == numTasks
      invariant forall t :: 0 <= t < numTasks ==> durations[t] == DurationsOf(modes[..i], ModesOf(modes[..i], t))
    {
      var task := modes[i].task;
      assert modes[..i + 1][..i] == modes[..i];
      durations := durations[task := durations[task] + [modes[i].duration]];
      i := i + 1;
    }
    assert modes[..|modes|] == modes;
  }

  // ------------------------------------------------------ mode matching

  /**
   * `identical_modes`: one pair per mode of `task1`, in index order, with the
   * modes of `task2` (in index order) whose resource set equals that mode's.
   */
  function IdenticalModes(modes: seq<Mode>, task1: int, task2: int): (r: seq<(nat, seq<nat>)>)
    ensures |r| == |ModesOf(modes, task1)|
    ensures forall i :: 0 <= i < |r| ==> r[i].0 == ModesOf(modes, task1)[i] && Increasing(r[i].1)
    ensures forall i, x :: 0 <= i < |r| ==>
              (x in r[i].1 <==> 0 <= x < |modes| && modes[x].task == task2
                                && Elements(modes[r[i].0].resources) == Elements(modes[x].resources))
  {
    var modes1 := ModesOf(modes, task1);
    var modes2 := ModesOf(modes, task2);
    seq(|modes1|, i requires 0 <= i < |modes1| =>
      (modes1[i], Select(modes2, (x: nat) => ResourceSet(modes, modes1[i]) == ResourceSet(modes, x))))
  }

  /**
   * `different_modes`: one pair per mode of `task1`, in index order, with the
   * modes of `task2` (in index order) whose resource set is disjoint from that mode's.
   */
  function DifferentModes(modes: seq<Mode>, task1: int, task2: int): (r: seq<(nat, seq<nat>)>)
    ensures |r| == |ModesOf(modes, task1)|
    ensures forall i :: 0 <= i < |r| ==> r[i].0 == ModesOf(modes, task1)[i] && Increasing(r[i].1)
    ensures forall i, x :: 0 <= i < |r| ==>
              (x in r[i].1 <==> 0 <= x < |modes| && modes[x].task == task2
                                && Elements(modes[r[i].0].resources) * Elements(modes[x].resources) == {})
  {
    var modes1 := ModesOf(modes, task1);
    var modes2 := ModesOf(modes, task2);
    seq(|modes1|, i requires 0 <= i < |modes1| =>
      (modes1[i], Select(modes2, (x: nat) => ResourceSet(modes, modes1[i]) * ResourceSet(modes, x) == {})))
  }

  /** `x` placed into the strictly increasing `s`, unless it is already there. */
  function Insert(s: seq<int>, x: int): (r: seq<int>)
    requires Increasing(s)
    ensures Increasing(r) && Elements(r) == Elements(s) + {x}
  {
    if s == [] then [x]
    else if x < s[0] then [x] + s
    else if x == s[0] then s
    else
      var rest := Insert(s[1..], x);
      assert Elements(s) == {s[0]} + Elements(s[1..]);
      assert forall k :: 0 <= k < |rest| ==> rest[k] in Elements(rest);
      [s[0]] + rest
  }

  /** `sorted(set(s))`: the distinct elements of `s` in increasing order. */
  function SortedSet(s: seq<int>): (r: seq<int>)
    ensures Increasing(r) && Elements(r) == Elements(s)
  {
    if s == [] then []
    else
      var prefix := s[..|s| - 1];
      assert Elements(s) == Elements(prefix) + {s[|s| - 1]};
      Insert(SortedSet(prefix), s[|s| - 1])
  }

  /** The sorted common resources of two modes. */
  function CommonResources(modes: seq<Mode>, m1: nat, m2: nat): (r: seq<int>)
    ensures Increasing(r) && Elements(r) == ResourceSet(modes, m1) * ResourceSet(modes, m2)
  {
    var common := if m1 < |modes| && m2 < |modes| then SelectInts(modes[m1].resources, Elements(modes[m2].resources)) else [];
    SortedSet(common)
  }

  /** The elements of `s` that belong to `keep`, in order. */
  function SelectInts(s: seq<int>, keep: set<int>): (r: seq<int>)
    ensures Elements(r) == Elements(s) * keep
  {
    if s == [] then []
    else
      var prefix := s[..|s| - 1];
      assert Elements(s) == Elements(prefix) + {s[|s| - 1]};
      var tail := if s[|s| - 1] in keep then [s[|s| - 1]] else [];
      ElementsConcat(SelectInts(prefix, keep), tail);
      SelectInts(prefix, keep) + tail
  }

  lemma {:induction false} ElementsConcat(a: seq<int>, b: seq<int>)
    ensures Elements(a + b) == Elements(a) + Elements(b)
  {
  }

  /** The triples of `m1` against every element of `m2`, for one `m1`. */
  function Row(modes: seq<Mode>, m1: nat, modes2: seq<nat>): (r: seq<(nat, nat, seq<int>)>)
    ensures |r| == |modes2|
    ensures forall j :: 0 <= j < |modes2| ==> r[j] == (m1, modes2[j], CommonResources(modes, m1, modes2[j]))
  {
    seq(|modes2|, j requires 0 <= j < |modes2| => (m1, modes2[j], CommonResources(modes, m1, modes2[j])))
  }

  /** `product(modes1, modes2)` mapped to triples: all rows, in the order of `modes1`. */
  function Product(modes: seq<Mode>, modes1: seq<nat>, modes2: seq<nat>): seq<(nat, nat, seq<int>)>
  {
    if modes1 == [] then []
    else Product(modes, modes1[..|modes1| - 1], modes2) + Row(modes, modes1[|modes1| - 1], modes2)
  }

  lemma {:induction false} ProductLength(modes: seq<Mode>, modes1: seq<nat>, modes2: seq<nat>)
    ensures |Product(modes, modes1, modes2)| == |modes1| * |modes2|
  {
    if modes1 != [] {
      ProductLength(modes, modes1[..|modes1| - 1], modes2);
      assert (|modes1| - 1) * |modes2| + |modes2| == |modes1| * |modes2|;
    }
  }

  /** Row `i` of the product starts right after the rows of the first `i` elements of `modes1`. */
  lemma {:induction false} ProductBlock(modes: seq<Mode>, modes1: seq<nat>, modes2: seq<nat>, i: nat, j: nat)
    requires i < |modes1| && j < |modes2|
    ensures |Product(modes, modes1[..i], modes2)| + j < |Product(modes, modes1, modes2)|
    ensures Product(modes, modes1, modes2)[|Product(modes, modes1[..i], modes2)| + j]
            == (modes1[i], modes2[j], CommonResources(modes, modes1[i], modes2[j]))
  {
    var prefix := modes1[..|modes1| - 1];
    var p := Product(modes, prefix, modes2);
    var row := Row(modes, modes1[|modes1| - 1], modes2);
    assert Product(modes, modes1, modes2) == p + row;
    if i < |prefix| {
      ProductBlock(modes, prefix, modes2, i, j);
      assert prefix[..i] == modes1[..i] && prefix[i] == modes1[i];
    } else {
      assert modes1[..i] == prefix;
    }
  }

  /** Entry `i * |modes2| + j` of the product is the pair of the i-th and the j-th mode. */
  lemma {:induction false} ProductAt(modes: seq<Mode>, modes1: seq<nat>, modes2: seq<nat>, i: nat, j: nat)
    requires i < |modes1| && j < |modes2|
    ensures i * |modes2| + j < |Product(modes, modes1, modes2)|
    ensures Product(modes, modes1, modes2)[i * |modes2| + j]
            == (modes1[i], modes2[j], CommonResources(modes, modes1[i], modes2[j]))
  {
    ProductBlock(modes, modes1, modes2, i, j);
    ProductLength(modes, modes1[..i], modes2);
  }

  /**
   * `intersecting_modes`: |modes1| * |modes2| triples in product order, each
   * carrying the sorted common resources of the two modes.
   */
  function IntersectingModes(modes: seq<Mode>, task1: int, task2: int): seq<(nat, nat, seq<int>)>
  {
    Product(modes, ModesOf(modes, task1), ModesOf(modes, task2))
  }

  /** `intersecting_modes` has one triple per (task1 mode, task2 mode) pair. */
  lemma {:induction false} IntersectingModesLength(modes: seq<Mode>, task1: int, task2: int)
    ensures |IntersectingModes(modes, task1, task2)| == |ModesOf(modes, task1)| * |ModesOf(modes, task2)|
  {
    ProductLength(modes, ModesOf(modes, task1), ModesOf(modes, task2));
  }

  /**
   * Triple `i * |modes2| + j` of `intersecting_modes` pairs the i-th mode of
   * task1 with the j-th mode of task2, and lists their common resources in
   * increasing order.
   */
  lemma {:induction false} IntersectingModesAt(modes: seq<Mode>, task1: int, task2: int, i: nat, j: nat)
    requires i < |ModesOf(modes, task1)| && j < |ModesOf(modes, task2)|
    ensures i * |ModesOf(modes, task2)| + j < |IntersectingModes(modes, task1, task2)|
    ensures var n := |ModesOf(modes, task2)|;
            var e := IntersectingModes(modes, task1, task2)[i * n + j];
            && e.0 == ModesOf(modes, task1)[i] && e.1 == ModesOf(modes, task2)[j]
            && Increasing(e.2) && Elements(e.2) == Elements(modes[e.0].resources) * Elements(modes[e.1].resources)
  {
    ProductAt(modes, ModesOf(modes, task1), ModesOf(modes, task2), i, j);
  }

  // ------------------------------------------------------ setup times

  /** The duration of the last setup-time record for (resource, task1, task2), or 0 if there is none. */
  function LastSetup(setupTimes: seq<SetupTime>, res: int, t1: int, t2: int): int
  {
    if setupTimes == [] then 0
    else
      var last := setupTimes[|setupTimes| - 1];
      if last.resource == res && last.task1 == t1 && last.task2 == t2 then last.duration
      else LastSetup(setupTimes[..|setupTimes| - 1], res, t1, t2)
  }

  /** Without any record for a key its entry is 0; otherwise it is the duration of one of its records. */
  lemma {:induction false} LastSetupRecorded(setupTimes: seq<SetupTime>, res: int, t1: int, t2: int)
    ensures (forall k :: 0 <= k < |setupTimes| ==> setupTimes[k].resource != res || setupTimes[k].task1 != t1 || setupTimes[k].task2 != t2)
            ==> LastSetup(setupTimes, res, t1, t2) == 0
    ensures (exists k :: 0 <= k < |setupTimes| && setupTimes[k] == SetupTime(res, t1, t2, LastSetup(setupTimes, res, t1, t2)))
            || LastSetup(setupTimes, res, t1, t2) == 0
  {
    if setupTimes != [] {
      var prefix := setupTimes[..|setupTimes| - 1];
      LastSetupRecorded(prefix, res, t1, t2);
      var last := setupTimes[|setupTimes| - 1];
      if !(last.resource == res && last.task1 == t1 && last.task2 == t2) {
        assert forall k :: 0 <= k < |prefix| ==> prefix[k] == setupTimes[k];
        if exists k :: 0 <= k < |prefix| && prefix[k] == SetupTime(res, t1, t2, LastSetup(prefix, res, t1, t2)) {
          var k :| 0 <= k < |prefix| && prefix[k] == SetupTime(res, t1, t2, LastSetup(prefix, res, t1, t2));
          assert setupTimes[k] == prefix[k];
        }
      } else {
        assert setupTimes[|setupTimes| - 1] == SetupTime(res, t1, t2, last.duration);
      }
    }
  }

  /**
   * `setup_times_matrix`: nothing when there are no setup-time records;
   * otherwise a fresh resources x tasks x tasks array, 0 except where a
   * record writes its duration, the later record winning.
   */
  method SetupTimesMatrix(setupTimes: seq<SetupTime>, numResources: nat, numTasks: nat) returns (r: Option<array3<int>>)
    requires forall k :: 0 <= k < |setupTimes| ==>
               0 <= setupTimes[k].resource < numResources && 0 <= setupTimes[k].task1 < numTasks
               && 0 <= setupTimes[k].task2 < numTasks
    ensures r.None? <==> setupTimes == []
    ensures r.Some? ==> fresh(r.value) && r.value.Length0 == numResources
                        && r.value.Length1 == numTasks && r.value.Length2 == numTasks
    ensures r.Some? ==> forall a, b, c :: 0 <= a < numResources && 0 <= b < numTasks && 0 <= c < numTasks ==>
                          r.value[a, b, c] == LastSetup(setupTimes, a, b, c)
  {
    if setupTimes == [] {
      return None;
    }
    var setup := new int[numResources, numTasks, numTasks]((a, b, c) => 0);
    var i := 0;
    while i < |setupTimes|
      invariant i <= |setupTimes|
      invariant forall a, b, c :: 0 <= a < numResources && 0 <= b < numTasks && 0 <= c < numTasks ==>
                  setup[a, b, c] == LastSetup(setupTimes[..i], a, b, c)
    {
      var s := setupTimes[i];
      assert setupTimes[..i + 1][..i] == setupTimes[..i];
      setup[s.resource, s.task1, s.task2] := s.duration;
      i := i + 1;
    }
    assert setupTimes[..|setupTimes|] == setupTimes;
    return Some(setup);
  }
}
