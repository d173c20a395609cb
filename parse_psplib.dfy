/**
 * `pyjobshop/parse/project/parse_psplib.py` after the file has been read into
 * stripped, non-blank lines: three section headers are located by `_find`,
 * the resources come from the two lines after "AVAILABILITIES", the mode rows
 * from the "REQUESTS/DURATIONS" section, and the activities from the
 * "PRECEDENCE RELATIONS" section, each activity taking as many consecutive
 * mode rows as it declares modes.
 */
module ParsePsplib {
  import opened Wrappers
  import opened Text
  import opened ProjectInstance

  // ------------------------------------------------------------ `_find`

  /** `pattern in line`: the pattern occurs in the line as a contiguous substring. */
  predicate Contains(line: string, pattern: string)
    decreases |line|
  {
    |pattern| <= |line| && (line[..|pattern|] == pattern || Contains(line[1..], pattern))
  }

  /** The first line at or after `i` that contains the pattern. */
  function FindFrom(lines: seq<string>, pattern: string, i: nat): (r: Result<nat, ParseError>)
    requires i <= |lines|
    ensures r.Ok? ==> i <= r.value < |lines| && Contains(lines[r.value], pattern)
                      && forall j :: i <= j < r.value ==> !Contains(lines[j], pattern)
    ensures r.Err? ==> r.error == PatternNotFound(pattern)
                       && forall j :: i <= j < |lines| ==> !Contains(lines[j], pattern)
    decreases |lines| - i
  {
    if i == |lines| then Err(PatternNotFound(pattern))
    else if Contains(lines[i], pattern) then Ok(i)
    else FindFrom(lines, pattern, i + 1)
  }

  /** `_find`: the index of the first line that contains the pattern, or a `ValueError`. */
  function Find(lines: seq<string>, pattern: string): (r: Result<nat, ParseError>)
  {
    FindFrom(lines, pattern, 0)
  }

  /** `_find`'s loop over `enumerate(lines)`. */
  method FindLine(lines: seq<string>, pattern: string) returns (r: Result<nat, ParseError>)
    ensures r == Find(lines, pattern)
  {
    var idx: nat := 0;
    while idx < |lines|
      invariant idx <= |lines| && FindFrom(lines, pattern, 0) == FindFrom(lines, pattern, idx)
    {
      if Contains(lines[idx], pattern) {
        return Ok(idx);
      }
      idx := idx + 1;
    }
    return Err(PatternNotFound(pattern));
  }

  // ------------------------------------------------------------ resources

  predicate IsFlag(token: string)
  {
    token == "R" || token == "N"
  }

  /** `[char == "R" for char in tokens if char in ["R", "N"]]`. */
  function RenewableFlags(tokens: seq<string>): (r: seq<bool>)
    ensures |r| <= |tokens|
    ensures (forall i :: 0 <= i < |tokens| ==> IsFlag(tokens[i])) ==>
              |r| == |tokens| && forall i :: 0 <= i < |r| ==> r[i] == (tokens[i] == "R")
  {
    if tokens == [] then []
    else
      var init := RenewableFlags(tokens[..|tokens| - 1]);
      var t := tokens[|tokens| - 1];
      if IsFlag(t) then init + [t == "R"] else init
  }

  /** Tokens other than "R" and "N" leave the flags unchanged. */
  lemma {:induction false} OtherTokensIgnored(tokens: seq<string>, t: string)
    requires !IsFlag(t)
    ensures RenewableFlags(tokens + [t]) == RenewableFlags(tokens)
  {
    assert (tokens + [t])[..|tokens|] == tokens;
  }

  /** `[Resource(c, r) for c, r in zip(capacities, renewable)]`: as long as the shorter list. */
  function Zip(capacities: seq<int>, renewable: seq<bool>): (r: seq<Resource>)
    ensures |r| == if |capacities| <= |renewable| then |capacities| else |renewable|
    ensures forall i :: 0 <= i < |r| ==> r[i] == Resource(capacities[i], renewable[i])
  {
    var n := if |capacities| <= |renewable| then |capacities| else |renewable|;
    seq(n, i requires 0 <= i < n => Resource(capacities[i], renewable[i]))
  }

  // ------------------------------------------------------------ rows

  /** `list(map(int, re.split(r"\s+", line)))` on a stripped line. */
  function Row(line: string): Result<seq<int>, ParseError>
  {
    ParseInts(Words(line))
  }

  /** The rows of all lines, or the first line's error. */
  function Rows(lines: seq<string>): Result<seq<seq<int>>, ParseError>
  {
    if lines == [] then Ok([])
    else
      var head := Row(lines[0]);
      if head.Err? then Err(head.error)
      else
        var tail := Rows(lines[1..]);
        if tail.Err? then Err(tail.error)
        else Ok([head.value] + tail.value)
  }

  /** Row `i` of the result is line `i` parsed; a failure is the first failing line's. */
  lemma {:induction false} RowsMeaning(lines: seq<string>)
    ensures Rows(lines).Ok? <==> forall i :: 0 <= i < |lines| ==> Row(lines[i]).Ok?
    ensures Rows(lines).Ok? ==>
              |Rows(lines).value| == |lines| && forall i :: 0 <= i < |lines| ==> Row(lines[i]) == Ok(Rows(lines).value[i])
    ensures Rows(lines).Err? ==>
              exists i :: 0 <= i < |lines| && Row(lines[i]) == Err(Rows(lines).error) && forall k :: 0 <= k < i ==> Row(lines[k]).Ok?
  {
    if lines != [] {
      var tail := lines[1..];
      RowsMeaning(tail);
      assert forall i :: 1 <= i < |lines| ==> lines[i] == tail[i - 1];
      if Row(lines[0]).Ok? && Rows(tail).Err? {
        var i :| 0 <= i < |tail| && Row(tail[i]) == Err(Rows(tail).error) && forall k :: 0 <= k < i ==> Row(tail[k]).Ok?;
        assert Row(lines[i + 1]) == Err(Rows(lines).error);
        assert forall k :: 0 <= k < i + 1 ==> Row(lines[k]).Ok? by {
          forall k | 0 <= k < i + 1
            ensures Row(lines[k]).Ok?
          {
            if k > 0 {
              assert lines[k] == tail[k - 1];
            }
          }
        }
      }
      if Rows(lines).Ok? {
        var rows := Rows(lines).value;
        assert forall i :: 1 <= i < |lines| ==> rows[i] == Rows(tail).value[i - 1];
      }
    }
  }

  // ------------------------------------------------------------ modes and activities

  /**
   * One mode row: the duration at position `-numResources - 1` and the
   * demands `row[-numResources:]`. With no resources that slice is the whole
   * row, as Python's `-0` is `0`.
   */
  function ReadMode(row: seq<int>, numResources: nat): (r: Result<Mode, ParseError>)
    ensures r.Ok? <==> numResources < |row|
    ensures r.Ok? ==> r.value.duration == row[|row| - numResources - 1]
    ensures r.Ok? && numResources > 0 ==> r.value.demands == row[|row| - numResources..] && |r.value.demands| == numResources
    ensures r.Ok? && numResources == 0 ==> r.value.demands == row
  {
    if numResources + 1 > |row| then Err(IndexError)
    else Ok(Mode(row[|row| - numResources - 1], PySlice(row, -(numResources as int), |row|)))
  }

  /** The modes of rows `start .. start + k - 1`, in order. */
  function ReadModes(modeData: seq<seq<int>>, start: nat, k: nat, numResources: nat): (r: Result<seq<Mode>, ParseError>)
    ensures r.Ok? ==> |r.value| == k && (k > 0 ==> start + k <= |modeData|)
                      && forall j :: 0 <= j < k ==> ReadMode(modeData[start + j], numResources) == Ok(r.value[j])
  {
    if k == 0 then Ok([])
    else
      match ReadModes(modeData, start, k - 1, numResources)
      case Err(e) => Err(e)
      case Ok(modes) =>
        if start + k - 1 >= |modeData| then Err(IndexError)
        else
          match ReadMode(modeData[start + k - 1], numResources)
          case Err(e) => Err(e)
          case Ok(m) => Ok(modes + [m])
  }

  /** `[val - 1 for val in jobs if val]`: the non-zero job numbers minus one, in order. */
  function Successors(jobs: seq<int>): (r: seq<int>)
    ensures |r| <= |jobs|
    ensures forall x :: x in r <==> x + 1 in jobs && x + 1 != 0
  {
    if jobs == [] then []
    else
      var init := Successors(jobs[..|jobs| - 1]);
      var v := jobs[|jobs| - 1];
      assert jobs == jobs[..|jobs| - 1] + [v];
      if v != 0 then init + [v - 1] else init
  }

  /**
   * One line of the precedence section: `_, num_modes, _, *jobs`, and the
   * `num_modes` mode rows from `modeIdx` on. Gives the activity and the next
   * mode row.
   */
  function ReadActivity(line: string, modeData: seq<seq<int>>, modeIdx: nat, numResources: nat)
    : Result<(Activity, nat), ParseError>
  {
    match Row(line)
    case Err(e) => Err(e)
    case Ok(row) =>
      if |row| < 3 then Err(ValueError)
      else
        match ReadModes(modeData, modeIdx, Count(row[1]), numResources)
        case Err(e) => Err(e)
        case Ok(modes) => Ok((NewActivity(modes, Successors(row[3..])), modeIdx + Count(row[1])))
  }

  /** The activities of the first `n` precedence lines and the next mode row. */
  function ReadActivities(lines: seq<string>, modeData: seq<seq<int>>, numResources: nat, n: nat)
    : (r: Result<(seq<Activity>, nat), ParseError>)
    requires n <= |lines|
    ensures r.Ok? ==> |r.value.0| == n
  {
    if n == 0 then Ok(([], 0))
    else
      match ReadActivities(lines, modeData, numResources, n - 1)
      case Err(e) => Err(e)
      case Ok((acts, modeIdx)) =>
        match ReadActivity(lines[n - 1], modeData, modeIdx, numResources)
        case Err(e) => Err(e)
        case Ok((a, next)) => Ok((acts + [a], next))
  }

  /** The indices of the three section headers, in the order the source looks them up. */
  function Sections(lines: seq<string>): Result<(nat, nat, nat), ParseError>
  {
    match Find(lines, "PRECEDENCE RELATIONS")
    case Err(e) => Err(e)
    case Ok(precIdx) =>
      match Find(lines, "REQUESTS/DURATIONS")
      case Err(e) => Err(e)
      case Ok(reqIdx) =>
        match Find(lines, "AVAILABILITIES")
        case Err(e) => Err(e)
        case Ok(availIdx) => Ok((precIdx, reqIdx, availIdx))
  }

  /** The resources: capacities two lines and flags one line after "AVAILABILITIES". */
  function Resources(lines: seq<string>, availIdx: nat): Result<seq<Resource>, ParseError>
  {
    if availIdx + 2 >= |lines| then Err(IndexError)
    else
      match Row(lines[availIdx + 2])
      case Err(e) => Err(e)
      case Ok(capacities) => Ok(Zip(capacities, RenewableFlags(Words(Strip(lines[availIdx + 1])))))
  }

  /** The mode rows: `lines[req_idx + 3 : avail_idx - 1]`. */
  function ModeLines(lines: seq<string>, reqIdx: nat, availIdx: nat): seq<string>
  {
    PySlice(lines, reqIdx + 3, availIdx as int - 1)
  }

  /** The activity lines: `lines[prec_idx + 2 : req_idx - 1]`. */
  function ActivityLines(lines: seq<string>, precIdx: nat, reqIdx: nat): seq<string>
  {
    PySlice(lines, precIdx + 2, reqIdx as int - 1)
  }

  /** A single project holding every activity, released at 0. */
  function Instance(resources: seq<Resource>, acts: seq<Activity>): ProjectInstance
  {
    ProjectInstance(resources, [NewProject(PyRange(|acts|))], acts)
  }

  /** Everything after the three sections have been found. */
  function Assemble(lines: seq<string>, precIdx: nat, reqIdx: nat, availIdx: nat): Result<ProjectInstance, ParseError>
  {
    match Resources(lines, availIdx)
    case Err(e) => Err(e)
    case Ok(resources) =>
      match Rows(ModeLines(lines, reqIdx, availIdx))
      case Err(e) => Err(e)
      case Ok(modeData) =>
        var actLines := ActivityLines(lines, precIdx, reqIdx);
        match ReadActivities(actLines, modeData, |resources|, |actLines|)
        case Err(e) => Err(e)
        case Ok((acts, _)) => Ok(Instance(resources, acts))
  }

  /** `parse_psplib` on the lines of the file. */
  function Psplib(raw: seq<string>): Result<ProjectInstance, ParseError>
  {
    var lines := StrippedLines(raw);
    match Sections(lines)
    case Err(e) => Err(e)
    case Ok((precIdx, reqIdx, availIdx)) => Assemble(lines, precIdx, reqIdx, availIdx)
  }

  // ------------------------------------------------------------ the parser

  lemma {:induction false} ReadModesFailed(modeData: seq<seq<int>>, start: nat, k: nat, n: nat, numResources: nat)
    requires k <= n && ReadModes(modeData, start, k, numResources).Err?
    ensures ReadModes(modeData, start, n, numResources) == ReadModes(modeData, start, k, numResources)
  {
    if k < n {
      ReadModesFailed(modeData, start, k, n - 1, numResources);
    }
  }

  lemma {:induction false} ReadActivitiesFailed(lines: seq<string>, modeData: seq<seq<int>>, numResources: nat, k: nat, n: nat)
    requires k <= n <= |lines| && ReadActivities(lines, modeData, numResources, k).Err?
    ensures ReadActivities(lines, modeData, numResources, n) == ReadActivities(lines, modeData, numResources, k)
  {
    if k < n {
      ReadActivitiesFailed(lines, modeData, numResources, k, n - 1);
    }
  }

  /** The inner loop: `for idx in range(mode_idx, mode_idx + num_modes)`, advancing `mode_idx`. */
  method ReadActivityModes(modeData: seq<seq<int>>, modeIdx: nat, numModes: int, numResources: nat)
    returns (r: Result<(seq<Mode>, nat), ParseError>)
    ensures r.Err? ==> ReadModes(modeData, modeIdx, Count(numModes), numResources) == Err(r.error)
    ensures r.Ok? ==> ReadModes(modeData, modeIdx, Count(numModes), numResources) == Ok(r.value.0)
                      && r.value.1 == modeIdx + Count(numModes)
  {
    var modes: seq<Mode> := [];
    var idx: nat := modeIdx;
    while idx < modeIdx + Count(numModes)
      invariant modeIdx <= idx <= modeIdx + Count(numModes)
      invariant ReadModes(modeData, modeIdx, idx - modeIdx, numResources) == Ok(modes)
    {
      if idx >= |modeData| {
        ReadModesFailed(modeData, modeIdx, idx - modeIdx + 1, Count(numModes), numResources);
        return Err(IndexError);
      }
      var mode := ReadMode(modeData[idx], numResources);
      if mode.Err? {
        ReadModesFailed(modeData, modeIdx, idx - modeIdx + 1, Count(numModes), numResources);
        return Err(mode.error);
      }
      modes := modes + [mode.value];
      idx := idx + 1;
    }
    return Ok((modes, idx));
  }

  lemma ReadActivitiesNext(lines: seq<string>, modeData: seq<seq<int>>, numResources: nat, k: nat,
                           acts: seq<Activity>, modeIdx: nat, a: Activity, next: nat)
    requires k < |lines| && ReadActivities(lines, modeData, numResources, k) == Ok((acts, modeIdx))
    requires ReadActivity(lines[k], modeData, modeIdx, numResources) == Ok((a, next))
    ensures ReadActivities(lines, modeData, numResources, k + 1) == Ok((acts + [a], next))
  {
  }

  /** One pass of the outer loop: the activity's row, its successors and its modes. */
  method ReadOneActivity(line: string, modeData: seq<seq<int>>, modeIdx: nat, numResources: nat)
    returns (r: Result<(Activity, nat), ParseError>)
    ensures r == ReadActivity(line, modeData, modeIdx, numResources)
  {
    var row := Row(line);
    if row.Err? {
      return Err(row.error);
    }
    if |row.value| < 3 {
      return Err(ValueError);
    }
    var successors := Successors(row.value[3..]);
    var modes := ReadActivityModes(modeData, modeIdx, row.value[1], numResources);
    if modes.Err? {
      return Err(modes.error);
    }
    return Ok((NewActivity(modes.value.0, successors), modes.value.1));
  }

  /** The outer loop over the precedence lines. */
  method ReadActivityLines(actLines: seq<string>, modeData: seq<seq<int>>, numResources: nat)
    returns (r: Result<seq<Activity>, ParseError>)
    ensures r.Err? ==> ReadActivities(actLines, modeData, numResources, |actLines|) == Err(r.error)
    ensures r.Ok? ==> ReadActivities(actLines, modeData, numResources, |actLines|).Ok?
                      && ReadActivities(actLines, modeData, numResources, |actLines|).value.0 == r.value
  {
    var modeIdx: nat := 0;
    var activities: seq<Activity> := [];
    var k: nat := 0;
    while k < |actLines|
      invariant k <= |actLines| && ReadActivities(actLines, modeData, numResources, k) == Ok((activities, modeIdx))
    {
      var step := ReadOneActivity(actLines[k], modeData, modeIdx, numResources);
      if step.Err? {
        ReadActivitiesFailed(actLines, modeData, numResources, k + 1, |actLines|);
        return Err(step.error);
      }
      ReadActivitiesNext(actLines, modeData, numResources, k, activities, modeIdx, step.value.0, step.value.1);
      activities := activities + [step.value.0];
      modeIdx := step.value.1;
      k := k + 1;
    }
    return Ok(activities);
  }

  /** `parse_psplib`. */
  method ParsePsplibLines(raw: seq<string>) returns (r: Result<ProjectInstance, ParseError>)
    ensures r == Psplib(raw)
  {
    var lines := StrippedLines(raw);
    var precIdx := FindLine(lines, "PRECEDENCE RELATIONS");
    if precIdx.Err? {
      return Err(precIdx.error);
    }
    var reqIdx := FindLine(lines, "REQUESTS/DURATIONS");
    if reqIdx.Err? {
      return Err(reqIdx.error);
    }
    var availIdx := FindLine(lines, "AVAILABILITIES");
    if availIdx.Err? {
      return Err(availIdx.error);
    }
    assert Sections(lines) == Ok((precIdx.value, reqIdx.value, availIdx.value));
    var resources := Resources(lines, availIdx.value);
    if resources.Err? {
      return Err(resources.error);
    }
    var modeData := Rows(ModeLines(lines, reqIdx.value, availIdx.value));
    if modeData.Err? {
      return Err(modeData.error);
    }
    var actLines := ActivityLines(lines, precIdx.value, reqIdx.value);
    var activities := ReadActivityLines(actLines, modeData.value, |resources.value|);
    if activities.Err? {
      return Err(activities.error);
    }
    return Ok(Instance(resources.value, activities.value));
  }

  // ------------------------------------------------------------ properties

  /** The number of mode rows the first `i` activities take. */
  function Offset(acts: seq<Activity>, i: nat): nat
    requires i <= |acts|
  {
    if i == 0 then 0 else Offset(acts, i - 1) + |acts[i - 1].modes|
  }

  /** The activity's modes are read from the rows from `offset` on. */
  predicate ModesAt(a: Activity, modeData: seq<seq<int>>, numResources: nat, offset: nat)
  {
    forall j :: 0 <= j < |a.modes| ==>
      offset + j < |modeData| && ReadMode(modeData[offset + j], numResources) == Ok(a.modes[j])
  }

  /** Activity `i`'s modes come from the rows right after those of the activities before it. */
  predicate ModesFrom(acts: seq<Activity>, modeData: seq<seq<int>>, numResources: nat, i: nat)
    requires i < |acts|
  {
    ModesAt(acts[i], modeData, numResources, Offset(acts, i))
  }

  lemma {:induction false} OffsetPrefix(acts: seq<Activity>, init: seq<Activity>, k: nat)
    requires k <= |init| <= |acts| && init == acts[..|init|]
    ensures Offset(acts, k) == Offset(init, k)
  {
    if k > 0 {
      OffsetPrefix(acts, init, k - 1);
      assert acts[k - 1] == init[k - 1];
    }
  }

  lemma ModesFromPrefix(acts: seq<Activity>, init: seq<Activity>, k: nat, modeData: seq<seq<int>>, numResources: nat, i: nat)
    requires i < k <= |acts| && init == acts[..k] && ModesFrom(init, modeData, numResources, i)
    ensures ModesFrom(acts, modeData, numResources, i)
  {
    OffsetPrefix(acts, init, i);
    assert acts[i] == init[i];
  }

  /** One activity's modes are the `|modes|` rows from `modeIdx` on. */
  lemma ReadActivityRows(line: string, modeData: seq<seq<int>>, modeIdx: nat, numResources: nat, a: Activity, next: nat)
    requires ReadActivity(line, modeData, modeIdx, numResources) == Ok((a, next))
    ensures next == modeIdx + |a.modes|
    ensures ModesAt(a, modeData, numResources, modeIdx)
  {
  }

  /**
   * Mode rows are consumed in order: activity `i`'s `j`-th mode is read from
   * the mode row just after those of the activities before it, and the rows
   * used are exactly the first `Offset(acts, n)`.
   */
  lemma ReadActivitiesLast(lines: seq<string>, modeData: seq<seq<int>>, numResources: nat, n: nat)
    requires 0 < n <= |lines| && ReadActivities(lines, modeData, numResources, n).Ok?
    ensures ReadActivities(lines, modeData, numResources, n - 1).Ok?
    ensures var r := ReadActivities(lines, modeData, numResources, n).value;
            var s := ReadActivities(lines, modeData, numResources, n - 1).value;
            r.0 == s.0 + [r.0[n - 1]] && ReadActivity(lines[n - 1], modeData, s.1, numResources) == Ok((r.0[n - 1], r.1))
  {
  }

  lemma {:induction false} ModesSequential(lines: seq<string>, modeData: seq<seq<int>>, numResources: nat, n: nat)
    requires n <= |lines| && ReadActivities(lines, modeData, numResources, n).Ok?
    ensures var r := ReadActivities(lines, modeData, numResources, n).value;
            && r.1 == Offset(r.0, n)
            && forall i :: 0 <= i < n ==> ModesFrom(r.0, modeData, numResources, i)
  {
    RowsUsed(lines, modeData, numResources, n);
    forall i | 0 <= i < n
      ensures ModesFrom(ReadActivities(lines, modeData, numResources, n).value.0, modeData, numResources, i)
    {
      ModesOfActivity(lines, modeData, numResources, n, i);
    }
  }

  /** The rows used by the first `n` activities are the first `Offset(acts, n)`. */
  lemma {:induction false} RowsUsed(lines: seq<string>, modeData: seq<seq<int>>, numResources: nat, n: nat)
    requires n <= |lines| && ReadActivities(lines, modeData, numResources, n).Ok?
    ensures var r := ReadActivities(lines, modeData, numResources, n).value;
            r.1 == Offset(r.0, n)
  {
    if n > 0 {
      ReadActivitiesLast(lines, modeData, numResources, n);
      var acts := ReadActivities(lines, modeData, numResources, n).value.0;
      var next := ReadActivities(lines, modeData, numResources, n).value.1;
      var init := ReadActivities(lines, modeData, numResources, n - 1).value.0;
      var idx := ReadActivities(lines, modeData, numResources, n - 1).value.1;
      assert acts[..n - 1] == init;
      RowsUsed(lines, modeData, numResources, n - 1);
      OffsetPrefix(acts, init, n - 1);
      ReadActivityRows(lines[n - 1], modeData, idx, numResources, acts[n - 1], next);
    }
  }

  /** Activity `i` of the first `n` reads its modes from the rows after those of the activities before it. */
  lemma {:induction false} ModesOfActivity(lines: seq<string>, modeData: seq<seq<int>>, numResources: nat, n: nat, i: nat)
    requires i < n <= |lines| && ReadActivities(lines, modeData, numResources, n).Ok?
    ensures ModesFrom(ReadActivities(lines, modeData, numResources, n).value.0, modeData, numResources, i)
  {
    ReadActivitiesLast(lines, modeData, numResources, n);
    var acts := ReadActivities(lines, modeData, numResources, n).value.0;
    var next := ReadActivities(lines, modeData, numResources, n).value.1;
    var init := ReadActivities(lines, modeData, numResources, n - 1).value.0;
    var idx := ReadActivities(lines, modeData, numResources, n - 1).value.1;
    assert acts[..n - 1] == init;
    if i < n - 1 {
      ModesOfActivity(lines, modeData, numResources, n - 1, i);
      ModesFromPrefix(acts, init, n - 1, modeData, numResources, i);
    } else {
      RowsUsed(lines, modeData, numResources, n - 1);
      OffsetPrefix(acts, init, n - 1);
      ReadActivityRows(lines[n - 1], modeData, idx, numResources, acts[n - 1], next);
    }
  }

  /**
   * A parsed instance has one project holding every activity index, released
   * at 0, one activity per line of the precedence section, and the resources
   * zipped from the capacity and flag lines.
   */
  lemma {:induction false} PsplibShape(raw: seq<string>)
    requires Psplib(raw).Ok?
    ensures var lines := StrippedLines(raw);
            var (precIdx, reqIdx, availIdx) := Sections(lines).value;
            var inst := Psplib(raw).value;
            && inst.projects == [Project(PyRange(inst.NumActivities()), 0)]
            && inst.NumActivities() == |ActivityLines(lines, precIdx, reqIdx)|
            && inst.resources == Resources(lines, availIdx).value
  {
  }
}
