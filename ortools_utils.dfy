/**
 * `partition_task_start_by_break_overlap` of `pyjobshop/solvers/ortools/utils.py`:
 * the start times of a task are split into classes by the total length of the
 * breaks the task runs into. An OR-Tools `Domain` is modelled by the finite
 * set of integers it contains.
 */
module OrToolsUtils {
  import opened Constants
  import opened ProblemData
  import opened SolverUtils
  import Sets

  /** A break `(start, end)`: the half-open time interval [start, end). */
  type Break = (int, int)

  function Max(a: int, b: int): int
  {
    if a >= b then a else b
  }

  /** `Domain(lo, hi)`: the closed interval [lo, hi]. */
  function Span(lo: int, hi: int): (r: set<int>)
    ensures forall t :: t in r <==> lo <= t <= hi
    decreases hi - lo
  {
    if hi < lo then {} else Span(lo, hi - 1) + {hi}
  }

  /** `Domain.from_intervals([[s, e - 1] for s, e in ivs])`: the union of the half-open intervals. */
  function HalfOpen(ivs: seq<(int, int)>): (r: set<int>)
    ensures forall t :: t in r <==> exists k :: 0 <= k < |ivs| && ivs[k].0 <= t < ivs[k].1
  {
    if ivs == [] then {}
    else
      var prefix := ivs[..|ivs| - 1];
      var last := ivs[|ivs| - 1];
      var r := HalfOpen(prefix) + Span(last.0, last.1 - 1);
      assert forall k :: 0 <= k < |prefix| ==> prefix[k] == ivs[k];
      r
  }

  function Reverse(s: seq<Break>): (r: seq<Break>)
    ensures |r| == |s| && forall i :: 0 <= i < |s| ==> r[i] == s[|s| - 1 - i]
  {
    if s == [] then [] else [s[|s| - 1]] + Reverse(s[..|s| - 1])
  }

  // ------------------------------------------------------ critical intervals

  /**
   * The inner loop over the earlier breaks `rev[j..]`: while the point lies
   * before the end of the next earlier break it moves back by that break's
   * length, clamped at 0; the first break it does not reach ends the walk.
   */
  function Walk(rev: seq<Break>, j: nat, point: int): int
    decreases |rev| - j
  {
    if j < |rev| && point < rev[j].1 then Walk(rev, j + 1, Max(0, point - (rev[j].1 - rev[j].0)))
    else point
  }

  /** The critical interval of the `i`-th break in reversed order: (earliest overlapping start, break start). */
  function Critical(rev: seq<Break>, i: nat, duration: int): (int, int)
    requires i < |rev|
  {
    (Walk(rev, i + 1, Max(0, rev[i].0 - duration + 1)), rev[i].0)
  }

  function Criticals(rev: seq<Break>, duration: int): (r: seq<(int, int)>)
    ensures |r| == |rev| && forall i :: 0 <= i < |rev| ==> r[i] == Critical(rev, i, duration)
  {
    seq(|rev|, i requires 0 <= i < |rev| => Critical(rev, i, duration))
  }

  lemma {:induction false} WalkNonNegative(rev: seq<Break>, j: nat, point: int)
    requires point >= 0
    ensures Walk(rev, j, point) >= 0
    decreases |rev| - j
  {
    if j < |rev| && point < rev[j].1 {
      WalkNonNegative(rev, j + 1, Max(0, point - (rev[j].1 - rev[j].0)));
    }
  }

  /** Critical points are clamped at 0: no critical interval starts before time 0. */
  lemma {:induction false} CriticalNonNegative(rev: seq<Break>, duration: int, i: nat)
    requires i < |rev|
    ensures Criticals(rev, duration)[i].0 >= 0
  {
    WalkNonNegative(rev, i + 1, Max(0, rev[i].0 - duration + 1));
  }

  /** The loop that computes `critical_intervals`, with its inner loop left by `break`. */
  method CriticalIntervals(rev: seq<Break>, duration: int) returns (crit: seq<(int, int)>)
    ensures crit == Criticals(rev, duration)
  {
    crit := [];
    var idx := 0;
    while idx < |rev|
      invariant idx <= |rev| && |crit| == idx
      invariant forall i :: 0 <= i < idx ==> crit[i] == Critical(rev, i, duration)
    {
      var start := rev[idx].0;
      var point := Max(0, start - duration + 1);
      var j := idx + 1;
      while j < |rev|
        invariant idx + 1 <= j <= |rev|
        invariant Walk(rev, j, point) == Walk(rev, idx + 1, Max(0, start - duration + 1))
        decreases |rev| - j
      {
        var (prevStart, prevEnd) := rev[j];
        if point < prevEnd {
          var prevDuration := prevEnd - prevStart;
          point := Max(0, point - prevDuration);
        } else {
          break;
        }
        j := j + 1;
      }
      crit := crit + [(point, start)];
      idx := idx + 1;
    }
  }

  // ------------------------------------------------------ the partition of the segments

  /** `sorted(set(point for points in critical_intervals for point in points))`. */
  function Endpoints(crit: seq<(int, int)>): (r: seq<int>)
    ensures forall x :: x in Elements(r) <==> exists k :: 0 <= k < |crit| && (x == crit[k].0 || x == crit[k].1)
  {
    if crit == [] then []
    else
      var prefix := crit[..|crit| - 1];
      var r := Endpoints(prefix) + [crit[|crit| - 1].0, crit[|crit| - 1].1];
      ElementsConcat(Endpoints(prefix), [crit[|crit| - 1].0, crit[|crit| - 1].1]);
      assert forall k :: 0 <= k < |prefix| ==> prefix[k] == crit[k];
      r
  }

  function Breakpoints(crit: seq<(int, int)>): (r: seq<int>)
    ensures Increasing(r) && Elements(r) == Elements(Endpoints(crit))
  {
    SortedSet(Endpoints(crit))
  }

  /** `pairwise(points)`: the consecutive pairs. */
  function Pairwise(points: seq<int>): (r: seq<(int, int)>)
    ensures |r| == if points == [] then 0 else |points| - 1
    ensures forall i :: 0 <= i < |r| ==> r[i] == (points[i], points[i + 1])
  {
    if |points| < 2 then [] else seq(|points| - 1, i requires 0 <= i < |points| - 1 => (points[i], points[i + 1]))
  }

  /** The breaks, taken against the first `n` critical intervals, whose critical interval holds the segment. */
  function OverlappingUpTo(rev: seq<Break>, crit: seq<(int, int)>, segment: (int, int), n: nat): (r: seq<Break>)
    requires n <= |rev| && n <= |crit|
    ensures forall b :: b in r <==> exists k :: 0 <= k < n && rev[k] == b && crit[k].0 <= segment.0 && segment.1 <= crit[k].1
  {
    if n == 0 then []
    else
      var r := OverlappingUpTo(rev, crit, segment, n - 1);
      var k := n - 1;
      if crit[k].0 <= segment.0 && segment.1 <= crit[k].1 then r + [rev[k]] else r
  }

  /** `[brk for brk, crit in zip(reversed_breaks, critical_intervals) if ...]`. */
  function Overlapping(rev: seq<Break>, crit: seq<(int, int)>, segment: (int, int)): seq<Break>
  {
    var n := if |rev| <= |crit| then |rev| else |crit|;
    OverlappingUpTo(rev, crit, segment, n)
  }

  /** `sum(end - start for (start, end) in overlapping)`. */
  function TotalDuration(brks: seq<Break>): int
  {
    if brks == [] then 0 else TotalDuration(brks[..|brks| - 1]) + (brks[|brks| - 1].1 - brks[|brks| - 1].0)
  }

  /** The `partition` dictionary after the segments `segs`, in order. */
  function PartitionOf(rev: seq<Break>, crit: seq<(int, int)>, segs: seq<(int, int)>): map<int, seq<(int, int)>>
  {
    if segs == [] then map[]
    else
      var p := PartitionOf(rev, crit, segs[..|segs| - 1]);
      var segment := segs[|segs| - 1];
      var overlapping := Overlapping(rev, crit, segment);
      if overlapping != [] then
        var total := TotalDuration(overlapping);
        p[total := (if total in p then p[total] else []) + [segment]]
      else p
  }

  /**
   * A segment is listed under `total` exactly when some break's critical
   * interval contains it and `total` is the summed length of those breaks.
   */
  lemma {:induction false} PartitionMembers(rev: seq<Break>, crit: seq<(int, int)>, segs: seq<(int, int)>, total: int, segment: (int, int))
    ensures var p := PartitionOf(rev, crit, segs);
            (total in p && segment in p[total]) <==>
            (segment in segs && Overlapping(rev, crit, segment) != [] && TotalDuration(Overlapping(rev, crit, segment)) == total)
  {
    if segs != [] {
      var prefix := segs[..|segs| - 1];
      PartitionMembers(rev, crit, prefix, total, segment);
      assert segs == prefix + [segs[|segs| - 1]];
    }
  }

  /** The loop over `pairwise(breakpoints)`. */
  method Partition(rev: seq<Break>, crit: seq<(int, int)>, points: seq<int>) returns (partition: map<int, seq<(int, int)>>)
    ensures partition == PartitionOf(rev, crit, Pairwise(points))
  {
    var segs := Pairwise(points);
    partition := map[];
    var i := 0;
    while i < |segs|
      invariant i <= |segs|
      invariant partition == PartitionOf(rev, crit, segs[..i])
    {
      var segment := segs[i];
      var overlapping := OverlappingBreaks(rev, crit, segment);
      assert segs[..i + 1][..i] == segs[..i];
      if overlapping != [] {
        var total := TotalDuration(overlapping);
        partition := partition[total := (if total in partition then partition[total] else []) + [segment]];
      }
      i := i + 1;
    }
    assert segs[..i] == segs;
  }

  /** The inner loop over the zipped breaks and critical intervals. */
  method OverlappingBreaks(rev: seq<Break>, crit: seq<(int, int)>, segment: (int, int)) returns (overlapping: seq<Break>)
    ensures overlapping == Overlapping(rev, crit, segment)
  {
    var n := if |rev| <= |crit| then |rev| else |crit|;
    overlapping := [];
    var k := 0;
    while k < n
      invariant k <= n
      invariant overlapping == OverlappingUpTo(rev, crit, segment, k)
    {
      if crit[k].0 <= segment.0 && segment.1 <= crit[k].1 {
        overlapping := overlapping + [rev[k]];
      }
      k := k + 1;
    }
  }

  // ------------------------------------------------------ domains

  /** The union of the values of a dictionary of domains. */
  function ValuesUnion(m: map<int, set<int>>): (r: set<int>)
    ensures forall t :: t in r <==> exists k :: k in m && t in m[k]
  {
    set k, t | k in m && t in m[k] :: t
  }

  /** `for other in domains.values(): domain = Domain.union_with(domain, other)`. */
  method UnionOfValues(domains: map<int, set<int>>) returns (domain: set<int>)
    ensures domain == ValuesUnion(domains)
  {
    domain := {};
    var todo := domains.Keys;
    while todo != {}
      invariant todo <= domains.Keys
      invariant forall t :: t in domain <==> exists k :: k in domains && k !in todo && t in domains[k]
      decreases |todo|
    {
      Sets.NonEmpty(todo);
      var k :| k in todo;
      domain := domain + domains[k];
      todo := todo - {k};
    }
    forall t ensures t in domain <==> t in ValuesUnion(domains) {
      if t in ValuesUnion(domains) {
        var k :| k in domains && t in domains[k];
        assert k !in todo;
      }
    }
  }

  /** The `partition` dictionary of a break list and a task duration. */
  function PartitionFor(breaks: seq<Break>, duration: int): map<int, seq<(int, int)>>
  {
    var rev := Reverse(breaks);
    var crit := Criticals(rev, duration);
    PartitionOf(rev, crit, Pairwise(Breakpoints(crit)))
  }

  /**
   * The domains before breaks are removed, as written: one per partition key,
   * then key 0 (over)written with the complement in [0, MAX_VALUE] of the union
   * of all of them.
   */
  function ClassDomains(partition: map<int, seq<(int, int)>>): (r: map<int, set<int>>)
    ensures r.Keys == partition.Keys + {0}
  {
    var domains := Domains(partition, false);
    domains[0 := Span(0, MAX_VALUE) - ValuesUnion(domains)]
  }

  /** The domains with the complement taken over the non-zero keys only, so that segments with zero overlap stay in class 0. */
  function ClassDomainsFixed(partition: map<int, seq<(int, int)>>): (r: map<int, set<int>>)
    ensures r.Keys == partition.Keys + {0}
  {
    var domains := Domains(partition, true);
    domains[0 := Span(0, MAX_VALUE) - ValuesUnion(domains)]
  }

  /** `{dur: Domain.from_intervals(...) for dur, intervals in partition.items()}`, optionally without key 0. */
  function Domains(partition: map<int, seq<(int, int)>>, skipZero: bool): (r: map<int, set<int>>)
    ensures r.Keys == if skipZero then partition.Keys - {0} else partition.Keys
    ensures forall k :: k in r ==> r[k] == HalfOpen(partition[k])
  {
    map k | k in partition && (!skipZero || k != 0) :: HalfOpen(partition[k])
  }

  /** The final comprehension: every domain minus the times inside a break. */
  function WithoutBreaks(breaks: seq<Break>, domains: map<int, set<int>>): (r: map<int, set<int>>)
    ensures r.Keys == domains.Keys && forall k :: k in r ==> r[k] == domains[k] - HalfOpen(breaks)
  {
    map k | k in domains :: domains[k] - HalfOpen(breaks)
  }

  /** The whole function: overlap duration -> admissible start times with that much break overlap. */
  function StartClasses(breaks: seq<Break>, duration: int): map<int, set<int>>
  {
    WithoutBreaks(breaks, ClassDomains(PartitionFor(breaks, duration)))
  }

  function StartClassesFixed(breaks: seq<Break>, duration: int): map<int, set<int>>
  {
    WithoutBreaks(breaks, ClassDomainsFixed(PartitionFor(breaks, duration)))
  }

  /** The domains of the partition, with key 0 set to the times no other domain holds. */
  method PartitionDomains(partition: map<int, seq<(int, int)>>) returns (domains: map<int, set<int>>)
    ensures domains == ClassDomains(partition)
  {
    domains := map k | k in partition :: HalfOpen(partition[k]);
    assert domains == Domains(partition, false);
    var domain := UnionOfValues(domains);
    domains := domains[0 := Span(0, MAX_VALUE) - domain];
  }

  /** `partition_task_start_by_break_overlap(breaks, task_duration)`. */
  method PartitionTaskStart(breaks: seq<Break>, duration: int) returns (r: map<int, set<int>>)
    ensures r == StartClasses(breaks, duration)
  {
    var rev := Reverse(breaks);
    var crit := CriticalIntervals(rev, duration);
    var points := SortedSet(Endpoints(crit));
    var partition := Partition(rev, crit, points);
    assert partition == PartitionFor(breaks, duration);
    var domains := PartitionDomains(partition);
    var inBreaks := HalfOpen(breaks);
    r := map k | k in domains :: domains[k] - inBreaks;
    assert r == WithoutBreaks(breaks, domains);
  }

  // ------------------------------------------------------ properties

  /** Without breaks the only class is 0, and it holds every time in [0, MAX_VALUE]. */
  lemma {:induction false} NoBreaks(duration: int)
    ensures StartClasses([], duration) == map[0 := Span(0, MAX_VALUE)]
  {
    var none: seq<Break> := [];
    assert Reverse(none) == [];
    var crit := Criticals([], duration);
    assert crit == [];
    assert Endpoints(crit) == [];
    assert Breakpoints(crit) == [];
    assert Pairwise(Breakpoints(crit)) == [];
    var partition := PartitionFor(none, duration);
    assert partition == map[];
    var empty: map<int, set<int>> := map[];
    assert Domains(partition, false) == empty;
    assert ValuesUnion(empty) == {};
    assert Span(0, MAX_VALUE) - {} == Span(0, MAX_VALUE);
    var domains := ClassDomains(partition);
    assert domains == map[0 := Span(0, MAX_VALUE)];
    assert HalfOpen(none) == {};
  }

  /** No class contains a time at which some break is in progress. */
  lemma {:induction false} NoStartInBreak(breaks: seq<Break>, duration: int, k: int, t: int, b: nat)
    requires k in StartClasses(breaks, duration) && t in StartClasses(breaks, duration)[k]
    requires b < |breaks|
    ensures !(breaks[b].0 <= t < breaks[b].1)
  {
  }

  /** The segments of an increasing list of points do not overlap. */
  lemma {:induction false} SegmentsDisjoint(points: seq<int>, s1: (int, int), s2: (int, int), t: int)
    requires Increasing(points) && s1 in Pairwise(points) && s2 in Pairwise(points)
    requires s1.0 <= t < s1.1 && s2.0 <= t < s2.1
    ensures s1 == s2
  {
    var segs := Pairwise(points);
    var i :| 0 <= i < |segs| && segs[i] == s1;
    var j :| 0 <= j < |segs| && segs[j] == s2;
  }

  /** A time in a non-zero class lies in a segment whose overlapping breaks sum to that class. */
  lemma {:induction false} ClassSegment(breaks: seq<Break>, duration: int, k: int, t: int)
    requires k != 0 && k in StartClasses(breaks, duration) && t in StartClasses(breaks, duration)[k]
    ensures var rev := Reverse(breaks);
            var crit := Criticals(rev, duration);
            exists segment :: segment in Pairwise(Breakpoints(crit)) && segment.0 <= t < segment.1
              && Overlapping(rev, crit, segment) != [] && TotalDuration(Overlapping(rev, crit, segment)) == k
  {
    var rev := Reverse(breaks);
    var crit := Criticals(rev, duration);
    var segs := Pairwise(Breakpoints(crit));
    var partition := PartitionOf(rev, crit, segs);
    assert k in partition && t in HalfOpen(partition[k]);
    var i :| 0 <= i < |partition[k]| && partition[k][i].0 <= t < partition[k][i].1;
    PartitionMembers(rev, crit, segs, k, partition[k][i]);
  }

  /** Different classes share no start time. */
  lemma {:induction false} ClassesDisjoint(breaks: seq<Break>, duration: int, k1: int, k2: int)
    requires k1 in StartClasses(breaks, duration) && k2 in StartClasses(breaks, duration) && k1 != k2
    ensures StartClasses(breaks, duration)[k1] * StartClasses(breaks, duration)[k2] == {}
  {
    var r := StartClasses(breaks, duration);
    var rev := Reverse(breaks);
    var crit := Criticals(rev, duration);
    var points := Breakpoints(crit);
    forall t | t in r[k1] ensures t !in r[k2] {
      if k1 != 0 && k2 != 0 {
        ClassSegment(breaks, duration, k1, t);
        if t in r[k2] {
          ClassSegment(breaks, duration, k2, t);
          var s1 :| s1 in Pairwise(points) && s1.0 <= t < s1.1
                    && Overlapping(rev, crit, s1) != [] && TotalDuration(Overlapping(rev, crit, s1)) == k1;
          var s2 :| s2 in Pairwise(points) && s2.0 <= t < s2.1
                    && Overlapping(rev, crit, s2) != [] && TotalDuration(Overlapping(rev, crit, s2)) == k2;
          SegmentsDisjoint(points, s1, s2, t);
        }
      }
    }
  }

  /** With the complement over the non-zero keys, every time in [0, MAX_VALUE] lies in some class. */
  lemma {:induction false} FixedDomainsCover(partition: map<int, seq<(int, int)>>, t: int)
    requires 0 <= t <= MAX_VALUE
    ensures exists k :: k in ClassDomainsFixed(partition) && t in ClassDomainsFixed(partition)[k]
  {
    var domains := Domains(partition, true);
    var r := ClassDomainsFixed(partition);
    if t in ValuesUnion(domains) {
      var k :| k in domains && t in domains[k];
      assert r[k] == domains[k];
    } else {
      assert t in r[0];
    }
  }

  /** The corrected classes cover every time in [0, MAX_VALUE] outside all breaks. */
  lemma {:induction false} FixedClassesCover(breaks: seq<Break>, duration: int, t: int)
    requires 0 <= t <= MAX_VALUE && forall b :: 0 <= b < |breaks| ==> !(breaks[b].0 <= t < breaks[b].1)
    ensures exists k :: k in StartClassesFixed(breaks, duration) && t in StartClassesFixed(breaks, duration)[k]
  {
    var domains := ClassDomainsFixed(PartitionFor(breaks, duration));
    FixedDomainsCover(PartitionFor(breaks, duration), t);
    var k :| k in domains && t in domains[k];
    assert t !in HalfOpen(breaks);
    assert t in StartClassesFixed(breaks, duration)[k];
  }

  predicate PositiveLengths(breaks: seq<Break>)
  {
    forall b :: 0 <= b < |breaks| ==> breaks[b].0 < breaks[b].1
  }

  lemma {:induction false} TotalPositive(brks: seq<Break>)
    requires brks != [] && PositiveLengths(brks)
    ensures TotalDuration(brks) > 0
  {
    var prefix := brks[..|brks| - 1];
    if prefix != [] {
      assert PositiveLengths(prefix) by {
        assert forall b :: 0 <= b < |prefix| ==> prefix[b] == brks[b];
      }
      TotalPositive(prefix);
    }
  }

  /** When every break has positive length, no segment is filed under key 0. */
  lemma {:induction false} NoZeroKey(breaks: seq<Break>, duration: int)
    requires PositiveLengths(breaks)
    ensures 0 !in PartitionFor(breaks, duration)
  {
    var rev := Reverse(breaks);
    var crit := Criticals(rev, duration);
    var segs := Pairwise(Breakpoints(crit));
    assert PositiveLengths(rev);
    forall segment | segment in segs && Overlapping(rev, crit, segment) != []
      ensures TotalDuration(Overlapping(rev, crit, segment)) > 0
    {
      var ov := Overlapping(rev, crit, segment);
      assert PositiveLengths(ov) by {
        forall b | 0 <= b < |ov| ensures ov[b].0 < ov[b].1 {
          assert ov[b] in ov;
        }
      }
      TotalPositive(ov);
    }
    if 0 in PartitionOf(rev, crit, segs) {
      var p := PartitionOf(rev, crit, segs);
      PartitionLists(rev, crit, segs, 0);
      PartitionMembers(rev, crit, segs, 0, p[0][0]);
    }
  }

  /** Every list in the partition is non-empty. */
  lemma {:induction false} PartitionLists(rev: seq<Break>, crit: seq<(int, int)>, segs: seq<(int, int)>, total: int)
    requires total in PartitionOf(rev, crit, segs)
    ensures PartitionOf(rev, crit, segs)[total] != []
  {
    var prefix := segs[..|segs| - 1];
    if total in PartitionOf(rev, crit, prefix) {
      PartitionLists(rev, crit, prefix, total);
    }
  }

  /** With breaks of positive length the code as written and the corrected version agree. */
  lemma {:induction false} SameForPositiveLengths(breaks: seq<Break>, duration: int)
    requires PositiveLengths(breaks)
    ensures StartClasses(breaks, duration) == StartClassesFixed(breaks, duration)
  {
    var partition := PartitionFor(breaks, duration);
    NoZeroKey(breaks, duration);
    assert Domains(partition, false) == Domains(partition, true);
    assert ClassDomains(partition) == ClassDomainsFixed(partition);
  }

  lemma {:induction false} ExampleCriticals()
    ensures Reverse([(1, 1)]) == [(1, 1)] && Criticals([(1, 1)], 2) == [(0, 1)]
  {
    var rev: seq<Break> := [(1, 1)];
    assert Reverse(rev) == [(1, 1)];
    assert Walk(rev, 1, 0) == 0;
  }

  lemma {:induction false} ExampleEndpoints()
    ensures Endpoints([(0, 1)]) == [0, 1]
  {
    var crit := [(0, 1)];
    assert crit[..0] == [];
  }

  lemma {:induction false} ExampleSorted()
    ensures SortedSet([0, 1]) == [0, 1]
  {
    assert [0, 1][..1] == [0] && [0][..0] == [];
    assert SortedSet([0]) == [0];
    assert Insert([0], 1) == [0, 1];
  }

  lemma {:induction false} ExampleSegments()
    ensures Pairwise(Breakpoints([(0, 1)])) == [(0, 1)]
  {
    ExampleEndpoints();
    ExampleSorted();
    var r := Pairwise([0, 1]);
    assert |r| == 1 && r[0] == (0, 1);
  }

  /** The partition of a single segment. */
  lemma {:induction false} PartitionOfOne(rev: seq<Break>, crit: seq<(int, int)>, segment: (int, int))
    ensures var overlapping := Overlapping(rev, crit, segment);
            PartitionOf(rev, crit, [segment]) ==
              if overlapping != [] then map[TotalDuration(overlapping) := [segment]] else map[]
  {
    assert [segment][..0] == [];
    var none: map<int, seq<(int, int)>> := map[];
    assert PartitionOf(rev, crit, [segment][..0]) == none;
    var overlapping := Overlapping(rev, crit, segment);
    if overlapping != [] {
      var total := TotalDuration(overlapping);
      var empty: seq<(int, int)> := [];
      assert total !in none && empty + [segment] == [segment];
      assert none[total := empty + [segment]] == map[total := [segment]];
    }
  }

  lemma {:induction false} ExamplePartition()
    ensures PartitionOf([(1, 1)], [(0, 1)], [(0, 1)]) == map[0 := [(0, 1)]]
  {
    var rev: seq<Break> := [(1, 1)];
    var crit := [(0, 1)];
    assert OverlappingUpTo(rev, crit, (0, 1), 0) == [];
    assert Overlapping(rev, crit, (0, 1)) == [(1, 1)];
    assert TotalDuration([(1, 1)]) == 0;
    PartitionOfOne(rev, crit, (0, 1));
  }

  /** A zero-length break at time 1 and a task of length 2: the segment [0, 1) is filed under key 0. */
  lemma {:induction false} ZeroLengthBreakPartition()
    ensures PartitionFor([(1, 1)], 2) == map[0 := [(0, 1)]]
  {
    ExampleCriticals();
    ExampleSegments();
    ExamplePartition();
  }

  /** As written, a start time filed under key 0 is in no class at all. */
  lemma {:induction false} ZeroKeyLost(breaks: seq<Break>, partition: map<int, seq<(int, int)>>, t: int)
    requires 0 in partition && t in HalfOpen(partition[0])
    requires forall k :: k in partition && k != 0 ==> t !in HalfOpen(partition[k])
    ensures forall k :: k in WithoutBreaks(breaks, ClassDomains(partition)) ==> t !in WithoutBreaks(breaks, ClassDomains(partition))[k]
  {
    assert t in ValuesUnion(Domains(partition, false));
  }

  /** As written, start time 0 is then in no class, although no break is in progress at 0. */
  lemma {:induction false} ZeroLengthBreakAsWritten()
    ensures forall k :: k in StartClasses([(1, 1)], 2) ==> 0 !in StartClasses([(1, 1)], 2)[k]
  {
    ZeroLengthBreakPartition();
    var partition := map[0 := [(0, 1)]];
    assert 0 in HalfOpen(partition[0]);
    ZeroKeyLost([(1, 1)], partition, 0);
  }

  /** In the corrected version a start time outside all breaks that is filed under key 0 is in class 0. */
  lemma {:induction false} ZeroKeyKept(breaks: seq<Break>, partition: map<int, seq<(int, int)>>, t: int)
    requires 0 <= t <= MAX_VALUE && t !in HalfOpen(breaks)
    requires forall k :: k in partition && k != 0 ==> t !in HalfOpen(partition[k])
    ensures 0 in WithoutBreaks(breaks, ClassDomainsFixed(partition)) && t in WithoutBreaks(breaks, ClassDomainsFixed(partition))[0]
  {
    assert t !in ValuesUnion(Domains(partition, true));
  }

  /** The corrected version puts start time 0 in class 0. */
  lemma {:induction false} ZeroLengthBreakFixed()
    ensures 0 in StartClassesFixed([(1, 1)], 2) && 0 in StartClassesFixed([(1, 1)], 2)[0]
  {
    ZeroLengthBreakPartition();
    var partition := map[0 := [(0, 1)]];
    var breaks: seq<Break> := [(1, 1)];
    assert 0 !in HalfOpen(breaks);
    ZeroKeyKept(breaks, partition, 0);
  }
}
