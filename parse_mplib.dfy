/**
 * `pyjobshop/parse/project/parse_mplib.py` after the file has been read into
 * stripped, non-blank lines, consumed one at a time: the number of projects,
 * the number of resources, the capacities, then per project a header line, a
 * skipped line and one line per activity. Successors are written as
 * `project:activity` names and resolved to activity indices in a second pass.
 */
module ParseMplib {
  import opened Wrappers
  import opened Decimal
  import opened Text
  import opened ProjectInstance

  /** The name the first pass gives activity `a` of project `p`: `f"{p}:{a}"`. */
  function Name(p: nat, a: nat): string
  {
    NatToString(p) + [':'] + NatToString(a)
  }

  lemma NoColon(n: nat)
    ensures ':' !in NatToString(n)
  {
    var s := NatToString(n);
    assert forall i :: 0 <= i < |s| ==> s[i] != ':';
  }

  /** Different activities get different names. */
  lemma NameInjective(p1: nat, a1: nat, p2: nat, a2: nat)
    requires Name(p1, a1) == Name(p2, a2)
    ensures p1 == p2 && a1 == a2
  {
    NoColon(p1);
    NoColon(a1);
    NoColon(p2);
    NoColon(a2);
    SplitJoined(NatToString(p1), NatToString(a1), ':');
    SplitJoined(NatToString(p2), NatToString(a2), ':');
    DigitsOfNat(p1);
    DigitsOfNat(a1);
    DigitsOfNat(p2);
    DigitsOfNat(a2);
  }

  /** An activity as the first pass leaves it: one mode, successors still as names. */
  datatype Named = Named(mode: Mode, successors: seq<string>, name: string)

  // ------------------------------------------------------------ first pass

  /** `next(lines)` at position `pos`. */
  function Line(lines: seq<string>, pos: nat): Result<string, ParseError>
  {
    if pos < |lines| then Ok(lines[pos]) else Err(StopIteration)
  }

  /** `int(next(lines))`. */
  function IntLine(lines: seq<string>, pos: nat): Result<int, ParseError>
  {
    match Line(lines, pos)
    case Err(e) => Err(e)
    case Ok(line) => if ParseInt(line).Some? then Ok(ParseInt(line).value) else Err(ValueError)
  }

  /**
   * One activity line: `duration, *demands, num_successors` from the first
   * `num_resources + 2` tokens, the successor names from the rest, whose
   * number must be `num_successors`.
   */
  function ReadActivity(line: string, numResources: int, p: nat, a: nat): (r: Result<Named, ParseError>)
    ensures r.Ok? ==> r.value.name == Name(p, a)
  {
    var tokens := Words(line);
    match ParseInts(PySlice(tokens, 0, numResources + 2))
    case Err(e) => Err(e)
    case Ok(vals) =>
      if |vals| < 2 then Err(ValueError)
      else
        var successors := PySlice(tokens, numResources + 2, |tokens|);
        if |successors| != vals[|vals| - 1] then Err(AssertionError)
        else Ok(Named(Mode(vals[0], vals[1..|vals| - 1]), successors, Name(p, a)))
  }

  /** The first `k` activities of project `p`, on the lines from `pos` on. */
  function ReadActivities(lines: seq<string>, pos: nat, numResources: int, p: nat, k: nat): (r: Result<seq<Named>, ParseError>)
    ensures r.Ok? ==> |r.value| == k && forall a :: 0 <= a < k ==> r.value[a].name == Name(p, a + 1)
  {
    if k == 0 then Ok([])
    else
      match ReadActivities(lines, pos, numResources, p, k - 1)
      case Err(e) => Err(e)
      case Ok(acts) =>
        match Line(lines, pos + k - 1)
        case Err(e) => Err(e)
        case Ok(line) =>
          match ReadActivity(line, numResources, p, k)
          case Err(e) => Err(e)
          case Ok(act) => Ok(acts + [act])
  }

  /** `[offset + idx for idx in range(n)]`. */
  function Indices(offset: nat, n: nat): (r: seq<int>)
    ensures |r| == n && forall i :: 0 <= i < n ==> r[i] == offset + i
  {
    seq(n, i requires 0 <= i < n => offset + i)
  }

  /**
   * Project `p`, whose header is at `pos` and whose activities get the
   * indices from `offset` on; gives the project, its activities and the next
   * line.
   */
  function ReadProject(lines: seq<string>, pos: nat, numResources: int, p: nat, offset: nat)
    : (r: Result<(Project, seq<Named>, nat), ParseError>)
    ensures r.Ok? ==> r.value.0.activities == Indices(offset, |r.value.1|)
                      && forall a :: 0 <= a < |r.value.1| ==> r.value.1[a].name == Name(p, a + 1)
  {
    match Line(lines, pos)
    case Err(e) => Err(e)
    case Ok(header) =>
      match ParseInts(Words(header))
      case Err(e) => Err(e)
      case Ok(vals) => ProjectOf(lines, pos, numResources, p, offset, vals)
  }

  /** The project once its header `num_activities, release_date` has been read as `vals`. */
  function ProjectOf(lines: seq<string>, pos: nat, numResources: int, p: nat, offset: nat, vals: seq<int>)
    : (r: Result<(Project, seq<Named>, nat), ParseError>)
    ensures r.Ok? ==> r.value.0.activities == Indices(offset, |r.value.1|)
                      && forall a :: 0 <= a < |r.value.1| ==> r.value.1[a].name == Name(p, a + 1)
  {
    if |vals| != 2 then Err(ValueError)
    else if pos + 1 >= |lines| then Err(StopIteration)
    else
      var n := Count(vals[0]);
      match ReadActivities(lines, pos + 2, numResources, p, n)
      case Err(e) => Err(e)
      case Ok(acts) => Ok((Project(Indices(offset, n), vals[1]), acts, pos + 2 + n))
  }

  /** Projects `1 .. n` from line `pos` on: the projects, all activities in order, the next line. */
  function ReadProjects(lines: seq<string>, pos: nat, numResources: int, n: nat)
    : (r: Result<(seq<Project>, seq<Named>, nat), ParseError>)
    ensures r.Ok? ==> |r.value.0| == n
  {
    if n == 0 then Ok(([], [], pos))
    else
      match ReadProjects(lines, pos, numResources, n - 1)
      case Err(e) => Err(e)
      case Ok((projects, named, next)) =>
        match ReadProject(lines, next, numResources, n, |named|)
        case Err(e) => Err(e)
        case Ok((project, acts, end)) => Ok((projects + [project], named + acts, end))
  }

  // ------------------------------------------------------------ second pass

  /** `id2idx`: each name mapped to the index of the last activity with that name. */
  function Id2Idx(named: seq<Named>): map<string, int>
  {
    if named == [] then map[]
    else Id2Idx(named[..|named| - 1])[named[|named| - 1].name := |named| - 1]
  }

  /** The keys of `id2idx` are exactly the activity names, and each maps to an index of that name. */
  lemma {:induction false} Id2IdxKeys(named: seq<Named>)
    ensures forall s :: s in Id2Idx(named) <==> exists i :: 0 <= i < |named| && named[i].name == s
    ensures forall s :: s in Id2Idx(named) ==> 0 <= Id2Idx(named)[s] < |named| && named[Id2Idx(named)[s]].name == s
  {
    if named != [] {
      var init := named[..|named| - 1];
      Id2IdxKeys(init);
      assert forall i :: 0 <= i < |init| ==> init[i] == named[i];
    }
  }

  /** `[id2idx[succ] for succ in successors]`, or a `KeyError` for the first unknown name. */
  function Resolve(successors: seq<string>, ids: map<string, int>): (r: Result<seq<int>, ParseError>)
    ensures r.Ok? <==> forall j :: 0 <= j < |successors| ==> successors[j] in ids
    ensures r.Ok? ==> |r.value| == |successors|
                      && forall j :: 0 <= j < |successors| ==> r.value[j] == ids[successors[j]]
    ensures r.Err? ==> exists j :: 0 <= j < |successors| && successors[j] !in ids && r.error == KeyError(successors[j])
  {
    if successors == [] then Ok([])
    else
      var init := successors[..|successors| - 1];
      var last := successors[|successors| - 1];
      assert forall j :: 0 <= j < |init| ==> init[j] == successors[j];
      match Resolve(init, ids)
      case Err(e) => Err(e)
      case Ok(idcs) => if last in ids then Ok(idcs + [ids[last]]) else Err(KeyError(last))
  }

  /** The activity with its successors resolved. */
  function Resolved(act: Named, ids: map<string, int>): Result<Activity, ParseError>
  {
    match Resolve(act.successors, ids)
    case Err(e) => Err(e)
    case Ok(idcs) => Ok(Activity([act.mode], idcs, act.name))
  }

  /** The second pass over all activities, in order. */
  function ResolveAll(named: seq<Named>, ids: map<string, int>): (r: Result<seq<Activity>, ParseError>)
    ensures r.Ok? ==> |r.value| == |named| && forall i :: 0 <= i < |named| ==> Resolved(named[i], ids) == Ok(r.value[i])
  {
    if named == [] then Ok([])
    else
      match ResolveAll(named[..|named| - 1], ids)
      case Err(e) => Err(e)
      case Ok(acts) =>
        match Resolved(named[|named| - 1], ids)
        case Err(e) => Err(e)
        case Ok(act) => Ok(acts + [act])
  }

  /** The three lines before the first project: number of projects and resources, the capacities. */
  function Header(lines: seq<string>): Result<(int, int, seq<int>), ParseError>
  {
    match IntLine(lines, 0)
    case Err(e) => Err(e)
    case Ok(numProjects) =>
      match IntLine(lines, 1)
      case Err(e) => Err(e)
      case Ok(numResources) =>
        match Line(lines, 2)
        case Err(e) => Err(e)
        case Ok(line) =>
          match ParseInts(Words(line))
          case Err(e) => Err(e)
          case Ok(capacities) => Ok((numProjects, numResources, capacities))
  }

  /** Every resource is renewable. */
  function Renewables(capacities: seq<int>): (r: seq<Resource>)
    ensures |r| == |capacities| && forall i :: 0 <= i < |r| ==> r[i] == Resource(capacities[i], true)
  {
    seq(|capacities|, i requires 0 <= i < |capacities| => Resource(capacities[i], true))
  }

  /** `parse_mplib` on the lines of the file. */
  function Mplib(raw: seq<string>): Result<ProjectInstance, ParseError>
  {
    var lines := StrippedLines(raw);
    match Header(lines)
    case Err(e) => Err(e)
    case Ok((numProjects, numResources, capacities)) =>
      match ReadProjects(lines, 3, numResources, Count(numProjects))
      case Err(e) => Err(e)
      case Ok((projects, named, _)) =>
        match ResolveAll(named, Id2Idx(named))
        case Err(e) => Err(e)
        case Ok(acts) => Ok(ProjectInstance(Renewables(capacities), projects, acts))
  }

  // ------------------------------------------------------------ the parser

  lemma {:induction false} ReadActivitiesFailed(lines: seq<string>, pos: nat, numResources: int, p: nat, k: nat, n: nat)
    requires k <= n && ReadActivities(lines, pos, numResources, p, k).Err?
    ensures ReadActivities(lines, pos, numResources, p, n) == ReadActivities(lines, pos, numResources, p, k)
  {
    if k < n {
      ReadActivitiesFailed(lines, pos, numResources, p, k, n - 1);
    }
  }

  lemma {:induction false} ReadProjectsFailed(lines: seq<string>, pos: nat, numResources: int, k: nat, n: nat)
    requires k <= n && ReadProjects(lines, pos, numResources, k).Err?
    ensures ReadProjects(lines, pos, numResources, n) == ReadProjects(lines, pos, numResources, k)
  {
    if k < n {
      ReadProjectsFailed(lines, pos, numResources, k, n - 1);
      assert ReadProjects(lines, pos, numResources, n - 1).Err?;
    }
  }

  lemma {:induction false} ResolveAllFailed(named: seq<Named>, ids: map<string, int>, k: nat)
    requires k < |named| && ResolveAll(named[..k], ids).Ok? && Resolved(named[k], ids).Err?
    ensures ResolveAll(named, ids) == Err(Resolved(named[k], ids).error)
    decreases |named|
  {
    if k < |named| - 1 {
      var init := named[..|named| - 1];
      assert init[..k] == named[..k] && init[k] == named[k];
      ResolveAllFailed(init, ids, k);
    } else {
      assert named[..k] == named[..|named| - 1];
    }
  }

  lemma ActivityFailed(lines: seq<string>, pos: nat, numResources: int, p: nat, k: nat, n: nat, line: nat,
                       acts: seq<Named>, act: Result<Named, ParseError>)
    requires k < n && line == pos + k && ReadActivities(lines, pos, numResources, p, k) == Ok(acts) && act.Err?
    requires if line < |lines| then act == ReadActivity(lines[line], numResources, p, k + 1) else act == Err(StopIteration)
    ensures ReadActivities(lines, pos, numResources, p, n) == Err(act.error)
  {
    assert Line(lines, pos + (k + 1) - 1) == if line < |lines| then Ok(lines[line]) else Err(StopIteration);
    assert ReadActivities(lines, pos, numResources, p, k + 1) == Err(act.error);
    ReadActivitiesFailed(lines, pos, numResources, p, k + 1, n);
  }

  lemma ReadActivitiesNext(lines: seq<string>, pos: nat, numResources: int, p: nat, k: nat, line: nat, acts: seq<Named>, act: Named)
    requires line == pos + k && ReadActivities(lines, pos, numResources, p, k) == Ok(acts)
    requires line < |lines| && ReadActivity(lines[line], numResources, p, k + 1) == Ok(act)
    ensures ReadActivities(lines, pos, numResources, p, k + 1) == Ok(acts + [act])
  {
  }

  lemma ProjectHeader(lines: seq<string>, pos: nat, numResources: int, p: nat, offset: nat, vals: Result<seq<int>, ParseError>)
    requires pos < |lines| && vals == ParseInts(Words(lines[pos]))
    ensures ReadProject(lines, pos, numResources, p, offset)
            == if vals.Err? then Err(vals.error) else ProjectOf(lines, pos, numResources, p, offset, vals.value)
  {
  }

  lemma ProjectBody(lines: seq<string>, pos: nat, numResources: int, p: nat, offset: nat, vals: seq<int>,
                    n: nat, acts: Result<seq<Named>, ParseError>)
    requires |vals| == 2 && pos + 1 < |lines| && n == Count(vals[0])
    requires acts == ReadActivities(lines, pos + 2, numResources, p, n)
    ensures acts.Err? ==> ProjectOf(lines, pos, numResources, p, offset, vals) == Err(acts.error)
    ensures acts.Ok? ==> ProjectOf(lines, pos, numResources, p, offset, vals)
                         == Ok((Project(Indices(offset, n), vals[1]), acts.value, pos + 2 + n))
  {
  }

  /** One pass of `for activity_idx in range(1, num_activities + 1)`. */
  method ReadActivityLine(line: string, numResources: int, p: nat, a: nat) returns (r: Result<Named, ParseError>)
    ensures r == ReadActivity(line, numResources, p, a)
  {
    var tokens := Words(line);
    var idx := numResources + 2;
    var vals := ParseInts(PySlice(tokens, 0, idx));
    if vals.Err? {
      return Err(vals.error);
    }
    if |vals.value| < 2 {
      return Err(ValueError);
    }
    var duration, demands, numSuccessors := vals.value[0], vals.value[1..|vals.value| - 1], vals.value[|vals.value| - 1];
    var successors := PySlice(tokens, idx, |tokens|);
    if |successors| != numSuccessors {
      return Err(AssertionError);
    }
    return Ok(Named(Mode(duration, demands), successors, Name(p, a)));
  }

  /** The activity lines of one project: `for activity_idx in range(1, num_activities + 1)`. */
  method ReadActivityLines(lines: seq<string>, pos: nat, numResources: int, p: nat, n: nat)
    returns (r: Result<seq<Named>, ParseError>)
    ensures r == ReadActivities(lines, pos, numResources, p, n)
  {
    var acts: seq<Named> := [];
    var k: nat := 0;
    while k < n
      invariant k <= n && ReadActivities(lines, pos, numResources, p, k) == Ok(acts)
    {
      var line := pos + k;
      if line >= |lines| {
        ActivityFailed(lines, pos, numResources, p, k, n, line, acts, Err(StopIteration));
        return Err(StopIteration);
      }
      var act := ReadActivityLine(lines[line], numResources, p, k + 1);
      if act.Err? {
        ActivityFailed(lines, pos, numResources, p, k, n, line, acts, act);
        return Err(act.error);
      }
      ReadActivitiesNext(lines, pos, numResources, p, k, line, acts, act.value);
      acts := acts + [act.value];
      k := k + 1;
    }
    return Ok(acts);
  }

  /** One pass of `for project_idx in range(1, num_projects + 1)`. */
  method ReadProjectLines(lines: seq<string>, pos: nat, numResources: int, p: nat, offset: nat)
    returns (r: Result<(Project, seq<Named>, nat), ParseError>)
    ensures r == ReadProject(lines, pos, numResources, p, offset)
  {
    if pos >= |lines| {
      return Err(StopIteration);
    }
    var vals := ParseInts(Words(lines[pos]));
    ProjectHeader(lines, pos, numResources, p, offset, vals);
    if vals.Err? {
      return Err(vals.error);
    }
    if |vals.value| != 2 {
      return Err(ValueError);
    }
    if pos + 1 >= |lines| {
      return Err(StopIteration);
    }
    var n := Count(vals.value[0]);
    var idcs := Indices(offset, n);
    var acts := ReadActivityLines(lines, pos + 2, numResources, p, n);
    ProjectBody(lines, pos, numResources, p, offset, vals.value, n, acts);
    if acts.Err? {
      return Err(acts.error);
    }
    return Ok((Project(idcs, vals.value[1]), acts.value, pos + 2 + n));
  }

  lemma ReadProjectsStop(lines: seq<string>, pos: nat, numResources: int, k: nat,
                         projects: seq<Project>, named: seq<Named>, next: nat)
    requires ReadProjects(lines, pos, numResources, k) == Ok((projects, named, next))
    requires ReadProject(lines, next, numResources, k + 1, |named|).Err?
    ensures ReadProjects(lines, pos, numResources, k + 1) == Err(ReadProject(lines, next, numResources, k + 1, |named|).error)
  {
  }

  lemma ReadProjectsNext(lines: seq<string>, pos: nat, numResources: int, k: nat,
                         projects: seq<Project>, named: seq<Named>, next: nat,
                         project: Project, acts: seq<Named>, end: nat)
    requires ReadProjects(lines, pos, numResources, k) == Ok((projects, named, next))
    requires ReadProject(lines, next, numResources, k + 1, |named|) == Ok((project, acts, end))
    ensures ReadProjects(lines, pos, numResources, k + 1) == Ok((projects + [project], named + acts, end))
  {
  }

  lemma Id2IdxNext(named: seq<Named>, act: Named)
    ensures Id2Idx(named + [act]) == Id2Idx(named)[act.name := |named|]
  {
    assert (named + [act])[..|named|] == named;
  }

  /** `id2idx[name] = len(activities)` for each activity as it is appended. */
  method AddNames(ids: map<string, int>, activities: seq<Named>, acts: seq<Named>) returns (r: map<string, int>)
    requires ids == Id2Idx(activities)
    ensures r == Id2Idx(activities + acts)
  {
    r := ids;
    var a: nat := 0;
    assert activities + acts[..0] == activities;
    while a < |acts|
      invariant a <= |acts| && r == Id2Idx(activities + acts[..a])
    {
      Id2IdxNext(activities + acts[..a], acts[a]);
      assert activities + acts[..a + 1] == (activities + acts[..a]) + [acts[a]];
      r := r[acts[a].name := |activities| + a];
      a := a + 1;
    }
    assert acts[..a] == acts;
  }

  /** The first pass; `id2idx` is filled in as the activities are appended. */
  method ReadAllProjects(lines: seq<string>, numResources: int, numProjects: int)
    returns (r: Result<(seq<Project>, seq<Named>), ParseError>, id2idx: map<string, int>)
    ensures ReadProjects(lines, 3, numResources, Count(numProjects)).Err? <==> r.Err?
    ensures r.Err? ==> ReadProjects(lines, 3, numResources, Count(numProjects)).error == r.error
    ensures r.Ok? ==> var v := ReadProjects(lines, 3, numResources, Count(numProjects)).value;
                      r.value == (v.0, v.1) && id2idx == Id2Idx(v.1)
  {
    var projects: seq<Project> := [];
    var activities: seq<Named> := [];
    id2idx := map[];
    var pos: nat := 3;
    var n := Count(numProjects);
    var k: nat := 0;
    while k < n
      invariant k <= n
      invariant ReadProjects(lines, 3, numResources, k) == Ok((projects, activities, pos))
      invariant id2idx == Id2Idx(activities)
    {
      var step := ReadProjectLines(lines, pos, numResources, k + 1, |activities|);
      if step.Err? {
        ReadProjectsStop(lines, 3, numResources, k, projects, activities, pos);
        ReadProjectsFailed(lines, 3, numResources, k + 1, n);
        return Err(step.error), id2idx;
      }
      var (project, acts, end) := step.value;
      ReadProjectsNext(lines, 3, numResources, k, projects, activities, pos, project, acts, end);
      id2idx := AddNames(id2idx, activities, acts);
      projects := projects + [project];
      activities := activities + acts;
      pos := end;
      k := k + 1;
    }
    assert k == n;
    return Ok((projects, activities)), id2idx;
  }

  /** The second pass: `for activity in activities`. */
  method ResolveActivities(named: seq<Named>, id2idx: map<string, int>) returns (r: Result<seq<Activity>, ParseError>)
    ensures r == ResolveAll(named, id2idx)
  {
    var acts: seq<Activity> := [];
    var i: nat := 0;
    while i < |named|
      invariant i <= |named| && ResolveAll(named[..i], id2idx) == Ok(acts)
    {
      var act := Resolved(named[i], id2idx);
      if act.Err? {
        ResolveAllFailed(named, id2idx, i);
        return Err(act.error);
      }
      assert named[..i + 1][..i] == named[..i];
      acts := acts + [act.value];
      i := i + 1;
    }
    assert named[..i] == named;
    return Ok(acts);
  }

  /** `parse_mplib`. */
  method ParseMplibLines(raw: seq<string>) returns (r: Result<ProjectInstance, ParseError>)
    ensures r == Mplib(raw)
  {
    var lines := StrippedLines(raw);
    var header := Header(lines);
    if header.Err? {
      return Err(header.error);
    }
    var (numProjects, numResources, capacities) := header.value;
    var first, id2idx := ReadAllProjects(lines, numResources, numProjects);
    if first.Err? {
      return Err(first.error);
    }
    var acts := ResolveActivities(first.value.1, id2idx);
    if acts.Err? {
      return Err(acts.error);
    }
    return Ok(ProjectInstance(Renewables(capacities), first.value.0, acts.value));
  }

  // ------------------------------------------------------------ properties

  /** The global index of the first activity of project `p`. */
  function Start(projects: seq<Project>, p: nat): nat
    requires p <= |projects|
  {
    if p == 0 then 0 else Start(projects, p - 1) + |projects[p - 1].activities|
  }

  /** Project `p` (0-based) holds the contiguous indices from `Start` on, named `p+1:a+1`. */
  predicate LaidOut(projects: seq<Project>, named: seq<Named>, p: nat)
    requires p < |projects|
  {
    var s := Start(projects, p);
    && s + |projects[p].activities| <= |named|
    && forall a :: 0 <= a < |projects[p].activities| ==>
         projects[p].activities[a] == s + a && named[s + a].name == Name(p + 1, a + 1)
  }

  predicate Layout(projects: seq<Project>, named: seq<Named>)
  {
    && |named| == Start(projects, |projects|)
    && forall p :: 0 <= p < |projects| ==> LaidOut(projects, named, p)
  }

  lemma {:induction false} StartPrefix(projects: seq<Project>, init: seq<Project>, k: nat)
    requires k <= |init| <= |projects| && init == projects[..|init|]
    ensures Start(projects, k) == Start(init, k)
  {
    if k > 0 {
      StartPrefix(projects, init, k - 1);
      assert projects[k - 1] == init[k - 1];
    }
  }

  lemma LaidOutPrefix(projects: seq<Project>, init: seq<Project>, named: seq<Named>, acts: seq<Named>, p: nat)
    requires p < |init| <= |projects| && init == projects[..|init|] && LaidOut(init, named, p)
    ensures LaidOut(projects, named + acts, p)
  {
    StartPrefix(projects, init, p);
    assert projects[p] == init[p];
    var s := Start(projects, p);
    forall a | 0 <= a < |projects[p].activities|
      ensures projects[p].activities[a] == s + a && (named + acts)[s + a].name == Name(p + 1, a + 1)
    {
      assert init[p].activities[a] == s + a;
      assert (named + acts)[s + a] == named[s + a];
    }
  }

  lemma LaidOutLast(projects: seq<Project>, named: seq<Named>, project: Project, acts: seq<Named>, p: nat)
    requires |named| == Start(projects, |projects|) && p == |projects|
    requires project.activities == Indices(|named|, |acts|)
    requires forall a :: 0 <= a < |acts| ==> acts[a].name == Name(p + 1, a + 1)
    ensures LaidOut(projects + [project], named + acts, p)
  {
    StartPrefix(projects + [project], projects, p);
    assert forall a :: 0 <= a < |acts| ==> (named + acts)[|named| + a] == acts[a];
  }

  /** Appending a project laid out after the others keeps the layout. */
  lemma LayoutStep(projects: seq<Project>, named: seq<Named>, project: Project, acts: seq<Named>)
    requires Layout(projects, named) && project.activities == Indices(|named|, |acts|)
    requires forall a :: 0 <= a < |acts| ==> acts[a].name == Name(|projects| + 1, a + 1)
    ensures Layout(projects + [project], named + acts)
  {
    var all := projects + [project];
    assert all[..|projects|] == projects;
    StartPrefix(all, projects, |projects|);
    LaidOutLast(projects, named, project, acts, |projects|);
    forall p | 0 <= p < |projects|
      ensures LaidOut(all, named + acts, p)
    {
      LaidOutPrefix(all, projects, named, acts, p);
    }
  }

  lemma ReadProjectsLast(lines: seq<string>, pos: nat, numResources: int, n: nat)
    requires n > 0 && ReadProjects(lines, pos, numResources, n).Ok?
    ensures ReadProjects(lines, pos, numResources, n - 1).Ok?
    ensures var v := ReadProjects(lines, pos, numResources, n - 1).value;
            && ReadProject(lines, v.2, numResources, n, |v.1|).Ok?
            && var w := ReadProject(lines, v.2, numResources, n, |v.1|).value;
            && ReadProjects(lines, pos, numResources, n).value == (v.0 + [w.0], v.1 + w.1, w.2)
  {
  }

  /**
   * The first pass lays the activities out project by project: project `p`
   * holds the consecutive indices starting after those of the projects
   * before it, and the activity at index `Start + a` is named `p+1:a+1`.
   */
  lemma {:induction false} ProjectsLayout(lines: seq<string>, pos: nat, numResources: int, n: nat)
    requires ReadProjects(lines, pos, numResources, n).Ok?
    ensures var v := ReadProjects(lines, pos, numResources, n).value; Layout(v.0, v.1)
  {
    if n > 0 {
      ProjectsLayout(lines, pos, numResources, n - 1);
      ReadProjectsLast(lines, pos, numResources, n);
      var v := ReadProjects(lines, pos, numResources, n - 1).value;
      var w := ReadProject(lines, v.2, numResources, n, |v.1|).value;
      LayoutStep(v.0, v.1, w.0, w.1);
    }
  }

  /** Every index lies in exactly one project's range. */
  lemma {:induction false} Locate(projects: seq<Project>, i: nat) returns (p: nat, a: nat)
    requires i < Start(projects, |projects|)
    ensures p < |projects| && a < |projects[p].activities| && i == Start(projects, p) + a
  {
    var q := |projects| - 1;
    if i >= Start(projects, q) {
      p, a := q, i - Start(projects, q);
    } else {
      var init := projects[..q];
      StartPrefix(projects, init, q);
      StartPrefix(projects, init, 0);
      assert i < Start(init, |init|);
      p, a := Locate(init, i);
      StartPrefix(projects, init, p);
      assert projects[p] == init[p];
    }
  }

  /** Under a layout, no two activities share a name. */
  lemma NamesDistinct(projects: seq<Project>, named: seq<Named>, i: nat, j: nat)
    requires Layout(projects, named) && i < |named| && j < |named| && named[i].name == named[j].name
    ensures i == j
  {
    var p, a := Locate(projects, i);
    var q, b := Locate(projects, j);
    assert LaidOut(projects, named, p) && LaidOut(projects, named, q);
    assert projects[p].activities[a] == Start(projects, p) + a;
    assert projects[q].activities[b] == Start(projects, q) + b;
    NameInjective(p + 1, a + 1, q + 1, b + 1);
  }

  /** `id2idx` maps a name that occurs once to the index where it occurs. */
  lemma {:induction false} Id2IdxUnique(named: seq<Named>, i: nat)
    requires i < |named| && forall j :: 0 <= j < |named| && named[j].name == named[i].name ==> j == i
    ensures named[i].name in Id2Idx(named) && Id2Idx(named)[named[i].name] == i
  {
    var n := |named| - 1;
    var init := named[..n];
    if i < n {
      forall j | 0 <= j < |init| && init[j].name == init[i].name
        ensures j == i
      {
        assert named[j] == init[j];
      }
      Id2IdxUnique(init, i);
      assert named[n].name != named[i].name;
    }
  }

  /** What a successful parse is made of. */
  lemma MplibParts(raw: seq<string>)
    requires Mplib(raw).Ok?
    ensures var lines := StrippedLines(raw);
            && Header(lines).Ok?
            && var h := Header(lines).value;
            && ReadProjects(lines, 3, h.1, Count(h.0)).Ok?
            && var v := ReadProjects(lines, 3, h.1, Count(h.0)).value;
            && var inst := Mplib(raw).value;
            && inst.resources == Renewables(h.2)
            && inst.projects == v.0
            && ResolveAll(v.1, Id2Idx(v.1)) == Ok(inst.activities)
  {
  }

  /** A successor naming the only activity with that name resolves to its index. */
  lemma ResolvedUnique(named: seq<Named>, i: nat, j: nat, k: nat, act: Activity)
    requires i < |named| && k < |named| && j < |named[i].successors| && named[i].successors[j] == named[k].name
    requires forall m :: 0 <= m < |named| && named[m].name == named[k].name ==> m == k
    requires Resolved(named[i], Id2Idx(named)) == Ok(act)
    ensures j < |act.successors| && act.successors[j] == k
  {
    Id2IdxUnique(named, k);
  }

  /**
   * In a parsed instance, a successor written `q:b` that names an existing
   * activity resolves to the index the instance lists as activity `b` of
   * project `q`.
   */
  lemma MplibSuccessors(raw: seq<string>, i: nat, j: nat, q: nat, b: nat)
    requires Mplib(raw).Ok?
    requires var inst := Mplib(raw).value;
             && i < |inst.activities| && 0 < q <= |inst.projects| && 0 < b <= |inst.projects[q - 1].activities|
    requires var lines := StrippedLines(raw);
             var h := Header(lines).value;
             var named := ReadProjects(lines, 3, h.1, Count(h.0)).value.1;
             j < |named[i].successors| && named[i].successors[j] == Name(q, b)
    ensures var inst := Mplib(raw).value;
            && j < |inst.activities[i].successors|
            && inst.activities[i].successors[j] == inst.projects[q - 1].activities[b - 1]
  {
    MplibParts(raw);
    var lines := StrippedLines(raw);
    var h := Header(lines).value;
    var v := ReadProjects(lines, 3, h.1, Count(h.0)).value;
    var inst := Mplib(raw).value;
    ProjectsLayout(lines, 3, h.1, Count(h.0));
    SuccessorOfLayout(v.0, v.1, inst.activities, i, j, q, b);
  }

  lemma SuccessorOfLayout(projects: seq<Project>, named: seq<Named>, acts: seq<Activity>, i: nat, j: nat, q: nat, b: nat)
    requires Layout(projects, named) && ResolveAll(named, Id2Idx(named)) == Ok(acts)
    requires i < |acts| && 0 < q <= |projects| && 0 < b <= |projects[q - 1].activities|
    requires j < |named[i].successors| && named[i].successors[j] == Name(q, b)
    ensures j < |acts[i].successors| && acts[i].successors[j] == projects[q - 1].activities[b - 1]
  {
    assert LaidOut(projects, named, q - 1);
    var k := Start(projects, q - 1) + (b - 1);
    assert projects[q - 1].activities[b - 1] == k;
    forall m | 0 <= m < |named| && named[m].name == named[k].name
      ensures m == k
    {
      NamesDistinct(projects, named, m, k);
    }
    ResolvedUnique(named, i, j, k, acts[i]);
  }

  /**
   * A parsed instance has one renewable resource per capacity, one mode per
   * activity, and every project's activities are valid activity indices
   * listed contiguously.
   */
  lemma MplibShape(raw: seq<string>)
    requires Mplib(raw).Ok?
    ensures var inst := Mplib(raw).value;
            && (forall r :: 0 <= r < |inst.resources| ==> inst.resources[r].renewable)
            && (forall i :: 0 <= i < |inst.activities| ==> |inst.activities[i].modes| == 1)
            && (forall p, a :: 0 <= p < |inst.projects| && 0 <= a < |inst.projects[p].activities| ==>
                  0 <= inst.projects[p].activities[a] < |inst.activities|)
  {
    var lines := StrippedLines(raw);
    var h := Header(lines).value;
    var v := ReadProjects(lines, 3, h.1, Count(h.0)).value;
    var inst := Mplib(raw).value;
    MplibParts(raw);
    ProjectsLayout(lines, 3, h.1, Count(h.0));
    var ids := Id2Idx(v.1);
    forall i | 0 <= i < |inst.activities|
      ensures |inst.activities[i].modes| == 1
    {
      assert Resolved(v.1[i], ids) == Ok(inst.activities[i]);
    }
    forall p, a | 0 <= p < |inst.projects| && 0 <= a < |inst.projects[p].activities|
      ensures 0 <= inst.projects[p].activities[a] < |inst.activities|
    {
      assert LaidOut(v.0, v.1, p);
    }
  }
}
