/**
 * `pyjobshop/parse/project/parse_patterson.py` after the file has been read
 * into lines: a header with the number of activities and resources, a
 * capacity line when there are resources, and then, read as one stream of
 * tokens regardless of line breaks, each activity's duration, demands,
 * successor count and 1-based successors.
 */
module ParsePatterson {
  import opened Wrappers
  import opened Decimal
  import opened Text
  import opened ProjectInstance
  import CpLog

  // ------------------------------------------------------------ specification

  /** `int(next(values))`. */
  function ReadInt(values: seq<string>, pos: nat): (r: Result<(int, nat), ParseError>)
    ensures r.Ok? ==> r.value.1 == pos + 1 && pos < |values| && ParseInt(values[pos]) == Some(r.value.0)
  {
    if pos >= |values| then Err(StopIteration)
    else
      match ParseInt(values[pos])
      case None => Err(ValueError)
      case Some(v) => Ok((v, pos + 1))
  }

  /** `[int(next(values)) for _ in range(k)]`, one token after the other. */
  function ReadInts(values: seq<string>, pos: nat, k: nat): (r: Result<(seq<int>, nat), ParseError>)
    ensures r.Ok? ==> |r.value.0| == k && r.value.1 == pos + k
  {
    if k == 0 then Ok(([], pos))
    else
      match ReadInts(values, pos, k - 1)
      case Err(e) => Err(e)
      case Ok((xs, p)) =>
        match ReadInt(values, p)
        case Err(e) => Err(e)
        case Ok((v, p')) => Ok((xs + [v], p'))
  }

  /** The successor indices: the 1-based numbers minus one. */
  function ZeroBased(succ: seq<int>): (r: seq<int>)
    ensures |r| == |succ| && forall i :: 0 <= i < |r| ==> r[i] == succ[i] - 1
  {
    seq(|succ|, i requires 0 <= i < |succ| => succ[i] - 1)
  }

  /** One activity: duration, `numResources` demands, successor count, successors. */
  function ReadActivity(values: seq<string>, pos: nat, numResources: int): Result<(Activity, nat), ParseError>
  {
    match ReadInt(values, pos)
    case Err(e) => Err(e)
    case Ok((duration, p1)) =>
      match ReadInts(values, p1, Count(numResources))
      case Err(e) => Err(e)
      case Ok((demands, p2)) =>
        match ReadInt(values, p2)
        case Err(e) => Err(e)
        case Ok((numSuccessors, p3)) =>
          match ReadInts(values, p3, Count(numSuccessors))
          case Err(e) => Err(e)
          case Ok((succ, p4)) => Ok((NewActivity([Mode(duration, demands)], ZeroBased(succ)), p4))
  }

  /** The first `k` activities of the stream. */
  function ReadActivities(values: seq<string>, numResources: int, k: nat): Result<(seq<Activity>, nat), ParseError>
  {
    if k == 0 then Ok(([], 0))
    else
      match ReadActivities(values, numResources, k - 1)
      case Err(e) => Err(e)
      case Ok((acts, p)) =>
        match ReadActivity(values, p, numResources)
        case Err(e) => Err(e)
        case Ok((a, p')) => Ok((acts + [a], p'))
  }

  /** `[val for line in lines for val in line.split()]`. */
  function Values(lines: seq<string>): seq<string>
  {
    CpLog.Flatten(seq(|lines|, i requires 0 <= i < |lines| => Words(lines[i])))
  }

  /** Renewable resources with the given capacities. */
  function Renewables(capacities: seq<int>): (r: seq<Resource>)
    ensures |r| == |capacities|
  {
    seq(|capacities|, i requires 0 <= i < |capacities| => Resource(capacities[i], true))
  }

  /** The header: `num_activities, num_resources = map(int, next(lines).split())`. */
  function Header(lines: seq<string>): (r: Result<(int, int), ParseError>)
  {
    if lines == [] then Err(StopIteration)
    else
      var tokens := Words(lines[0]);
      match ParseInts(tokens)
      case Err(e) => Err(e)
      case Ok(vs) => if |vs| != 2 then Err(ValueError) else Ok((vs[0], vs[1]))
  }

  /** The capacities, read from the second line only when there are resources, and the lines after them. */
  function Capacities(lines: seq<string>, numResources: int): Result<(seq<int>, seq<string>), ParseError>
    requires lines != []
  {
    if numResources == 0 then Ok(([], lines[1..]))
    else if |lines| < 2 then Err(StopIteration)
    else
      match ParseInts(Words(lines[1]))
      case Err(e) => Err(e)
      case Ok(caps) => Ok((caps, lines[2..]))
  }

  /** `parse_patterson` on the lines of the file. */
  function Patterson(raw: seq<string>): Result<ProjectInstance, ParseError>
  {
    var lines := StrippedLines(raw);
    match Header(lines)
    case Err(e) => Err(e)
    case Ok((numActivities, numResources)) =>
      match Capacities(lines, numResources)
      case Err(e) => Err(e)
      case Ok((caps, rest)) =>
        match ReadActivities(Values(rest), numResources, Count(numActivities))
        case Err(e) => Err(e)
        case Ok((acts, _)) => Ok(ProjectInstance(Renewables(caps), [NewProject(PyRange(numActivities))], acts))
  }

  // ------------------------------------------------------------ the parser

  lemma {:induction false} ReadIntsFailed(values: seq<string>, pos: nat, k: nat, n: nat)
    requires k <= n && ReadInts(values, pos, k).Err?
    ensures ReadInts(values, pos, n) == ReadInts(values, pos, k)
  {
    if k < n {
      ReadIntsFailed(values, pos, k, n - 1);
    }
  }

  lemma {:induction false} ReadActivitiesFailed(values: seq<string>, numResources: int, k: nat, n: nat)
    requires k <= n && ReadActivities(values, numResources, k).Err?
    ensures ReadActivities(values, numResources, n) == ReadActivities(values, numResources, k)
  {
    if k < n {
      ReadActivitiesFailed(values, numResources, k, n - 1);
    }
  }

  /** The comprehension `[int(next(values)) for _ in range(k)]`. */
  method ReadIntList(values: seq<string>, pos: nat, k: nat) returns (r: Result<(seq<int>, nat), ParseError>)
    ensures r == ReadInts(values, pos, k)
  {
    var xs: seq<int> := [];
    var p := pos;
    var i: nat := 0;
    while i < k
      invariant i <= k && ReadInts(values, pos, i) == Ok((xs, p))
    {
      var next := ReadInt(values, p);
      if next.Err? {
        ReadIntsFailed(values, pos, i + 1, k);
        return Err(next.error);
      }
      xs, p := xs + [next.value.0], next.value.1;
      i := i + 1;
    }
    return Ok((xs, p));
  }

  /** One pass of the activity loop. */
  method ReadOneActivity(values: seq<string>, pos: nat, numResources: int) returns (r: Result<(Activity, nat), ParseError>)
    ensures r == ReadActivity(values, pos, numResources)
  {
    var duration := ReadInt(values, pos);
    if duration.Err? {
      return Err(duration.error);
    }
    var demands := ReadIntList(values, duration.value.1, Count(numResources));
    if demands.Err? {
      return Err(demands.error);
    }
    var numSuccessors := ReadInt(values, demands.value.1);
    if numSuccessors.Err? {
      return Err(numSuccessors.error);
    }
    var succ := ReadIntList(values, numSuccessors.value.1, Count(numSuccessors.value.0));
    if succ.Err? {
      return Err(succ.error);
    }
    var successors: seq<int> := [];
    var j: nat := 0;
    while j < |succ.value.0|
      invariant j <= |succ.value.0| && successors == ZeroBased(succ.value.0[..j])
    {
      successors := successors + [succ.value.0[j] - 1];
      j := j + 1;
    }
    assert succ.value.0[..j] == succ.value.0;
    return Ok((NewActivity([Mode(duration.value.0, demands.value.0)], successors), succ.value.1));
  }

  /** `parse_patterson`. */
  method ParsePattersonLines(raw: seq<string>) returns (r: Result<ProjectInstance, ParseError>)
    ensures r == Patterson(raw)
  {
    var lines := StrippedLines(raw);
    var header := Header(lines);
    if header.Err? {
      return Err(header.error);
    }
    var (numActivities, numResources) := header.value;
    var capacities := Capacities(lines, numResources);
    if capacities.Err? {
      return Err(capacities.error);
    }
    var (caps, rest) := capacities.value;
    var values := Values(rest);
    var activities: seq<Activity> := [];
    var pos: nat := 0;
    var k: nat := 0;
    while k < Count(numActivities)
      invariant k <= Count(numActivities) && ReadActivities(values, numResources, k) == Ok((activities, pos))
    {
      var next := ReadOneActivity(values, pos, numResources);
      if next.Err? {
        ReadActivitiesFailed(values, numResources, k + 1, Count(numActivities));
        return Err(next.error);
      }
      activities, pos := activities + [next.value.0], next.value.1;
      k := k + 1;
    }
    return Ok(ProjectInstance(Renewables(caps), [NewProject(PyRange(numActivities))], activities));
  }

  // ------------------------------------------------------------ properties

  /**
   * A parsed instance has renewable resources only, one single-mode activity
   * per declared activity, each with one demand per declared resource, and a
   * single project of all activities `0 .. n-1` released at 0.
   */
  lemma {:induction false} PattersonShape(raw: seq<string>)
    requires Patterson(raw).Ok?
    ensures var lines := StrippedLines(raw);
            var (n, numResources) := Header(lines).value;
            var inst := Patterson(raw).value;
            && (forall i :: 0 <= i < |inst.resources| ==> inst.resources[i].renewable)
            && inst.resources == Renewables(Capacities(lines, numResources).value.0)
            && inst.NumActivities() == Count(n)
            && inst.projects == [Project(PyRange(n), 0)]
            && forall i :: 0 <= i < |inst.activities| ==>
                 inst.activities[i].NumModes() == 1 && |inst.activities[i].modes[0].demands| == Count(numResources)
  {
    var lines := StrippedLines(raw);
    var (n, numResources) := Header(lines).value;
    var rest := Capacities(lines, numResources).value.1;
    ActivitiesShape(Values(rest), numResources, Count(n));
  }

  lemma {:induction false} ActivitiesShape(values: seq<string>, numResources: int, k: nat)
    requires ReadActivities(values, numResources, k).Ok?
    ensures var acts := ReadActivities(values, numResources, k).value.0;
            && |acts| == k
            && forall i :: 0 <= i < k ==> acts[i].NumModes() == 1 && |acts[i].modes[0].demands| == Count(numResources)
  {
    if k > 0 {
      ActivitiesShape(values, numResources, k - 1);
    }
  }

  // ------------------------------------------------------------ round trip

  /** An activity as the file lists it: duration, demands and 1-based successor numbers. */
  datatype Listed = Listed(duration: nat, demands: seq<nat>, successors: seq<nat>)

  /** The tokens of one listed activity. */
  function ListedTokens(a: Listed): seq<nat>
  {
    [a.duration] + a.demands + [|a.successors|] + a.successors
  }

  /** The lines of a file, each the numbers of one block separated by blanks. */
  function Lines(blocks: seq<seq<nat>>): (r: seq<string>)
    ensures |r| == |blocks|
  {
    seq(|blocks|, i requires 0 <= i < |blocks| => Join(Rendered(blocks[i])))
  }

  /** The activities' token blocks, one per line. */
  function ActivityBlocks(acts: seq<Listed>): (r: seq<seq<nat>>)
    ensures |r| == |acts|
  {
    seq(|acts|, i requires 0 <= i < |acts| => ListedTokens(acts[i]))
  }

  /** The header block and, when there are resources, the capacity block. */
  function HeadBlocks(capacities: seq<nat>, n: nat): (r: seq<seq<nat>>)
    ensures |r| == if capacities == [] then 1 else 2
    ensures forall i :: 0 <= i < |r| ==> r[i] != []
  {
    [[n, |capacities|]] + (if capacities == [] then [] else [capacities])
  }

  /** A Patterson file: header, the capacities when there are any, one line per activity. */
  function Format(capacities: seq<nat>, acts: seq<Listed>): seq<string>
  {
    Lines(HeadBlocks(capacities, |acts|) + ActivityBlocks(acts))
  }

  function Expected(a: Listed): Activity
  {
    Activity([Mode(a.duration, a.demands)], ZeroBased(a.successors), "")
  }

  /** The activities' tokens, in order. */
  function Stream(acts: seq<Listed>): seq<nat>
  {
    CpLog.Flatten(ActivityBlocks(acts))
  }

  /** The tokens from `pos` on are the renderings of `vs`. */
  predicate At(values: seq<string>, pos: nat, vs: seq<nat>)
  {
    pos + |vs| <= |values| && forall j :: 0 <= j < |vs| ==> values[pos + j] == NatToString(vs[j])
  }

  lemma AtSplit(values: seq<string>, pos: nat, xs: seq<nat>, ys: seq<nat>, mid: nat)
    requires At(values, pos, xs + ys) && mid == pos + |xs|
    ensures At(values, pos, xs) && At(values, mid, ys)
  {
    assert forall j :: 0 <= j < |xs| ==> (xs + ys)[j] == xs[j];
    assert forall j :: 0 <= j < |ys| ==> (xs + ys)[|xs| + j] == ys[j];
  }

  lemma ReadRenderedInt(values: seq<string>, pos: nat, v: nat)
    requires At(values, pos, [v])
    ensures ReadInt(values, pos) == Ok((v as int, pos + 1))
  {
    assert values[pos] == NatToString([v][0]);
    ParseNatToString(v);
  }

  /** Reading rendered numbers gives them back. */
  lemma {:induction false} ReadRendered(values: seq<string>, pos: nat, vs: seq<nat>)
    requires At(values, pos, vs)
    ensures ReadInts(values, pos, |vs|) == Ok((vs, pos + |vs|))
  {
    if vs != [] {
      var init, last := vs[..|vs| - 1], vs[|vs| - 1];
      assert init + [last] == vs;
      AtSplit(values, pos, init, [last], pos + |init|);
      ReadRendered(values, pos, init);
      ReadRenderedInt(values, pos + |init|, last);
    }
  }

  /** Reading a listed activity's tokens gives its activity. */
  lemma ReadListed(values: seq<string>, pos: nat, numResources: nat, a: Listed)
    requires |a.demands| == numResources && At(values, pos, ListedTokens(a))
    ensures ReadActivity(values, pos, numResources) == Ok((Expected(a), pos + |ListedTokens(a)|))
  {
    var d, n := |a.demands|, |a.successors|;
    ListedAt(values, pos, a);
    ReadRenderedInt(values, pos, a.duration);
    ReadRendered(values, pos + 1, a.demands);
    ReadRenderedInt(values, pos + 1 + d, n);
    ReadRendered(values, pos + 2 + d, a.successors);
    ReadActivityOk(values, pos, numResources, a.duration, d, a.demands, pos + 1 + d, n, n, a.successors, pos + 2 + d + n);
  }

  /** Where each part of a listed activity's tokens stands. */
  lemma ListedAt(values: seq<string>, pos: nat, a: Listed)
    requires At(values, pos, ListedTokens(a))
    ensures var d := |a.demands|;
            At(values, pos, [a.duration]) && At(values, pos + 1, a.demands)
            && At(values, pos + 1 + d, [|a.successors|]) && At(values, pos + 2 + d, a.successors)
    ensures |ListedTokens(a)| == 2 + |a.demands| + |a.successors|
  {
    var d, n := |a.demands|, |a.successors|;
    AtSplit(values, pos, [a.duration] + a.demands + [n], a.successors, pos + 2 + d);
    AtSplit(values, pos, [a.duration] + a.demands, [n], pos + 1 + d);
    AtSplit(values, pos, [a.duration], a.demands, pos + 1);
  }

  /** The four reads of one activity, put together. */
  lemma ReadActivityOk(values: seq<string>, pos: nat, numResources: int, duration: int, k1: nat, demands: seq<int>, p2: nat,
                       numSuccessors: int, k2: nat, succ: seq<int>, p4: nat)
    requires k1 == Count(numResources) && k2 == Count(numSuccessors)
    requires ReadInt(values, pos) == Ok((duration, pos + 1))
    requires ReadInts(values, pos + 1, k1) == Ok((demands, p2))
    requires ReadInt(values, p2) == Ok((numSuccessors, p2 + 1))
    requires ReadInts(values, p2 + 1, k2) == Ok((succ, p4))
    ensures ReadActivity(values, pos, numResources) == Ok((NewActivity([Mode(duration, demands)], ZeroBased(succ)), p4))
  {
  }

  function Expecteds(acts: seq<Listed>): (r: seq<Activity>)
    ensures |r| == |acts|
  {
    seq(|acts|, i requires 0 <= i < |acts| => Expected(acts[i]))
  }

  lemma StreamStep(acts: seq<Listed>)
    requires acts != []
    ensures Stream(acts) == Stream(acts[..|acts| - 1]) + ListedTokens(acts[|acts| - 1])
    ensures Expecteds(acts) == Expecteds(acts[..|acts| - 1]) + [Expected(acts[|acts| - 1])]
  {
    var init, last := acts[..|acts| - 1], acts[|acts| - 1];
    assert ActivityBlocks(acts) == ActivityBlocks(init) + [ListedTokens(last)];
    CpLog.FlattenStep(ActivityBlocks(init), ListedTokens(last));
  }

  lemma ReadActivitiesStep(values: seq<string>, numResources: int, k: nat, acts: seq<Activity>, p: nat, a: Activity, p': nat)
    requires k > 0
    requires ReadActivities(values, numResources, k - 1) == Ok((acts, p))
    requires ReadActivity(values, p, numResources) == Ok((a, p'))
    ensures ReadActivities(values, numResources, k) == Ok((acts + [a], p'))
  {
  }

  /** Reading the stream of listed activities gives their activities. */
  lemma {:induction false} ReadStream(values: seq<string>, numResources: nat, acts: seq<Listed>)
    requires forall i :: 0 <= i < |acts| ==> |acts[i].demands| == numResources
    requires At(values, 0, Stream(acts))
    ensures ReadActivities(values, numResources, |acts|) == Ok((Expecteds(acts), |Stream(acts)|))
  {
    if acts != [] {
      var init, last := acts[..|acts| - 1], acts[|acts| - 1];
      StreamStep(acts);
      AtSplit(values, 0, Stream(init), ListedTokens(last), |Stream(init)|);
      assert forall i :: 0 <= i < |init| ==> init[i] == acts[i];
      ReadStream(values, numResources, init);
      ReadListed(values, |Stream(init)|, numResources, last);
      ReadActivitiesStep(values, numResources, |acts|, Expecteds(init), |Stream(init)|, Expected(last), |Stream(acts)|);
    } else {
      assert ActivityBlocks(acts) == [];
    }
  }

  /** Rendered lists flatten into the rendering of their concatenation. */
  lemma {:induction false} FlattenRendered(blocks: seq<seq<nat>>)
    ensures CpLog.Flatten(seq(|blocks|, i requires 0 <= i < |blocks| => Rendered(blocks[i]))) == Rendered(CpLog.Flatten(blocks))
  {
    var rs := seq(|blocks|, i requires 0 <= i < |blocks| => Rendered(blocks[i]));
    if blocks != [] {
      var init := blocks[..|blocks| - 1];
      FlattenRendered(init);
      assert rs[..|rs| - 1] == seq(|init|, i requires 0 <= i < |init| => Rendered(init[i]));
      RenderedAppend(CpLog.Flatten(init), blocks[|blocks| - 1]);
    }
  }

  /** The tokens of the lines are the renderings of the blocks, in order. */
  lemma ValuesOfLines(blocks: seq<seq<nat>>)
    ensures Values(Lines(blocks)) == Rendered(CpLog.Flatten(blocks))
  {
    var lines := Lines(blocks);
    forall i | 0 <= i < |lines|
      ensures Words(lines[i]) == Rendered(blocks[i])
    {
      WordsJoin(Rendered(blocks[i]));
    }
    assert seq(|lines|, i requires 0 <= i < |lines| => Words(lines[i]))
           == seq(|blocks|, i requires 0 <= i < |blocks| => Rendered(blocks[i]));
    FlattenRendered(blocks);
  }

  /** A line of rendered numbers is stripped and not blank. */
  lemma RenderedLine(vs: seq<nat>)
    requires vs != []
    ensures var s := Join(Rendered(vs)); s != [] && !IsSpace(s[0]) && !IsSpace(s[|s| - 1])
    ensures Words(Join(Rendered(vs))) == Rendered(vs)
  {
    JoinEnds(Rendered(vs));
    WordsJoin(Rendered(vs));
  }

  /** Lines of non-empty blocks are already stripped and not blank. */
  lemma LinesStripped(blocks: seq<seq<nat>>)
    requires forall i :: 0 <= i < |blocks| ==> blocks[i] != []
    ensures StrippedLines(Lines(blocks)) == Lines(blocks)
  {
    var lines := Lines(blocks);
    forall i | 0 <= i < |lines|
      ensures lines[i] != [] && !IsSpace(lines[i][0]) && !IsSpace(lines[i][|lines[i]| - 1])
    {
      RenderedLine(blocks[i]);
    }
    StrippedLinesId(lines);
  }

  lemma LinesDrop(blocks: seq<seq<nat>>, k: nat)
    requires k <= |blocks|
    ensures Lines(blocks)[k..] == Lines(blocks[k..])
  {
  }

  /** The first line of rendered blocks is read as the header. */
  lemma HeaderOfLines(blocks: seq<seq<nat>>, a: nat, b: nat)
    requires blocks != [] && blocks[0] == [a, b]
    ensures Header(Lines(blocks)) == Ok((a as int, b as int))
  {
    RenderedLine(blocks[0]);
    ParseRendered(blocks[0]);
  }

  /** The second line of rendered blocks is read as the capacities. */
  lemma CapacitiesOfLines(blocks: seq<seq<nat>>, caps: seq<nat>)
    requires |blocks| >= 2 && blocks[1] == caps && caps != []
    ensures Capacities(Lines(blocks), |caps|) == Ok((caps, Lines(blocks[2..])))
  {
    RenderedLine(caps);
    ParseRendered(caps);
    LinesDrop(blocks, 2);
  }

  /** The header and capacity lines of a formatted file. */
  lemma FormatHead(capacities: seq<nat>, acts: seq<Listed>)
    ensures var lines := Format(capacities, acts);
            && StrippedLines(lines) == lines
            && Header(lines) == Ok((|acts| as int, |capacities| as int))
            && Capacities(lines, |capacities|) == Ok((capacities, Lines(ActivityBlocks(acts))))
  {
    var head := HeadBlocks(capacities, |acts|);
    var blocks := head + ActivityBlocks(acts);
    assert forall i :: 0 <= i < |blocks| ==> blocks[i] != [];
    LinesStripped(blocks);
    assert blocks[0] == [|acts|, |capacities|];
    HeaderOfLines(blocks, |acts|, |capacities|);
    assert blocks[|head|..] == ActivityBlocks(acts);
    if capacities != [] {
      assert blocks[1] == capacities;
      CapacitiesOfLines(blocks, capacities);
    } else {
      LinesDrop(blocks, 1);
    }
  }

  /**
   * Parsing a formatted instance gives back its capacities as renewable
   * resources, its activities with 0-based successors, and one project of
   * all activities.
   */
  lemma PattersonRoundTrip(capacities: seq<nat>, acts: seq<Listed>)
    requires forall i :: 0 <= i < |acts| ==> |acts[i].demands| == |capacities|
    ensures Patterson(Format(capacities, acts))
            == Ok(ProjectInstance(Renewables(capacities), [NewProject(PyRange(|acts|))], Expecteds(acts)))
  {
    var lines := Format(capacities, acts);
    FormatHead(capacities, acts);
    var rest := Lines(ActivityBlocks(acts));
    var values := Values(rest);
    ValuesOfLines(ActivityBlocks(acts));
    RenderedAt(Stream(acts));
    ReadStream(values, |capacities|, acts);
    PattersonOf(lines, |acts|, |capacities|, capacities, rest, Expecteds(acts));
  }

  /** Rendered numbers stand at the start of their rendering. */
  lemma RenderedAt(vs: seq<nat>)
    ensures At(Rendered(vs), 0, vs)
  {
  }

  /** `Patterson` once its header, capacities and activities are known. */
  lemma PattersonOf(lines: seq<string>, n: nat, numResources: nat, caps: seq<int>, rest: seq<string>, acts: seq<Activity>)
    requires StrippedLines(lines) == lines && Header(lines) == Ok((n as int, numResources as int))
    requires Capacities(lines, numResources) == Ok((caps, rest))
    requires ReadActivities(Values(rest), numResources, n).Ok? && ReadActivities(Values(rest), numResources, n).value.0 == acts
    ensures Patterson(lines) == Ok(ProjectInstance(Renewables(caps), [NewProject(PyRange(n))], acts))
  {
  }
}
