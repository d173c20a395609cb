/**
 * The integer part of `parse/parse_benchmark.py`: the classical FJSP
 * job-operation data line, `parse_fjsp` with its implied precedences, the
 * data part of `parse_naderi2022`, and the index mapping `convert_to_model`
 * applies when it hands the parsed data to the model builder. Files have
 * already been turned into rows of numbers.
 */
module ParseBenchmark {
  import opened Wrappers
  import opened Text

  /** `MAX_INT = 2**25`, the processing time standing in for "not eligible". */
  const MAX_INT: int := 0x200_0000

  datatype OperationData = OperationData(machine: int, processingTime: int)

  /** `ParsedData` without the optional setup times. */
  datatype ParsedData = ParsedData(numMachines: int, jobs: seq<seq<seq<OperationData>>>, precedence: seq<(int, int)>)

  // ------------------------------------------------------------ one job line

  /** `k` pairs (machine, processing time) from the front of `s`, and what follows them. */
  function ReadPairs(s: seq<int>, k: nat): (r: Result<(seq<OperationData>, seq<int>), ParseError>)
    ensures r.Ok? ==> |r.value.1| <= |s|
  {
    if k == 0 then Ok(([], s))
    else if |s| < 2 then Err(IndexError)
    else
      match ReadPairs(s[2..], k - 1)
      case Err(e) => Err(e)
      case Ok((ops, rest)) => Ok(([OperationData(s[0], s[1])] + ops, rest))
  }

  /**
   * Reading `k` pairs succeeds exactly when `s` holds `2 * k` numbers, gives
   * `k` operations and leaves the rest of `s`; otherwise it is an `IndexError`.
   */
  lemma {:induction false} ReadPairsShape(s: seq<int>, k: nat)
    ensures ReadPairs(s, k).Ok? <==> 2 * k <= |s|
    ensures ReadPairs(s, k).Ok? ==> |ReadPairs(s, k).value.0| == k && ReadPairs(s, k).value.1 == s[2 * k..]
    ensures ReadPairs(s, k).Err? ==> ReadPairs(s, k).error == IndexError
  {
    if k > 0 && |s| >= 2 {
      ReadPairsShape(s[2..], k - 1);
      if 2 * k <= |s| {
        assert s[2..][2 * (k - 1)..] == s[2 * k..];
      }
    }
  }

  /** The operations from the front of `s` to its end: each a count `k` and `k` pairs. */
  function ReadOperations(s: seq<int>): Result<seq<seq<OperationData>>, ParseError>
    decreases |s|
  {
    if s == [] then Ok([])
    else
      match ReadPairs(s[1..], Count(s[0]))
      case Err(e) => Err(e)
      case Ok((op, rest)) =>
        match ReadOperations(rest)
        case Err(e) => Err(e)
        case Ok(ops) => Ok([op] + ops)
  }

  /**
   * `parse_fjsp_job_operation_data_line`: the operations from position 1 on,
   * whose number must be `line[0]`.
   */
  function JobLine(line: seq<int>): (r: Result<seq<seq<OperationData>>, ParseError>)
    ensures r.Ok? ==> line != [] && |r.value| == line[0]
    ensures line == [] ==> r == Err(IndexError)
  {
    if line == [] then Err(IndexError)
    else
      match ReadOperations(line[1..])
      case Err(e) => Err(e)
      case Ok(ops) => if |ops| != line[0] then Err(AssertionError) else Ok(ops)
  }

  /** The pairs of one operation as they are written. */
  function EncodePairs(op: seq<OperationData>): (r: seq<int>)
    ensures |r| == 2 * |op|
  {
    if op == [] then [] else [op[0].machine, op[0].processingTime] + EncodePairs(op[1..])
  }

  /** The operations of one job as they are written after the leading count. */
  function EncodeOperations(ops: seq<seq<OperationData>>): seq<int>
  {
    if ops == [] then [] else [|ops[0]|] + EncodePairs(ops[0]) + EncodeOperations(ops[1..])
  }

  /** A job-operation data line. */
  function EncodeLine(ops: seq<seq<OperationData>>): seq<int>
  {
    [|ops|] + EncodeOperations(ops)
  }

  lemma {:induction false} ReadPairsEncoded(op: seq<OperationData>, t: seq<int>)
    ensures ReadPairs(EncodePairs(op) + t, |op|) == Ok((op, t))
  {
    if op != [] {
      var s := EncodePairs(op) + t;
      var u := EncodePairs(op[1..]) + t;
      assert s == [op[0].machine, op[0].processingTime] + u;
      assert s[2..] == u;
      ReadPairsEncoded(op[1..], t);
      assert [OperationData(s[0], s[1])] + op[1..] == op;
    } else {
      assert EncodePairs(op) + t == t;
    }
  }

  lemma {:induction false} ReadOperationsEncoded(ops: seq<seq<OperationData>>)
    ensures ReadOperations(EncodeOperations(ops)) == Ok(ops)
  {
    if ops != [] {
      var s := EncodeOperations(ops);
      var rest := EncodeOperations(ops[1..]);
      assert s[1..] == EncodePairs(ops[0]) + rest;
      ReadPairsEncoded(ops[0], rest);
      ReadOperationsEncoded(ops[1..]);
      assert [ops[0]] + ops[1..] == ops;
    }
  }

  /** Reading a written job line gives back its operations. */
  lemma JobLineRoundTrip(ops: seq<seq<OperationData>>)
    ensures JobLine(EncodeLine(ops)) == Ok(ops)
  {
    assert EncodeLine(ops)[1..] == EncodeOperations(ops);
    ReadOperationsEncoded(ops);
  }

  /** The result of a later read, behind what has been read already. */
  function Then(done: seq<seq<OperationData>>, later: Result<seq<seq<OperationData>>, ParseError>)
    : Result<seq<seq<OperationData>>, ParseError>
  {
    match later
    case Err(e) => Err(e)
    case Ok(ops) => Ok(done + ops)
  }

  function ThenPairs(done: seq<OperationData>, later: Result<(seq<OperationData>, seq<int>), ParseError>)
    : Result<(seq<OperationData>, seq<int>), ParseError>
  {
    match later
    case Err(e) => Err(e)
    case Ok((op, rest)) => Ok((done + op, rest))
  }

  lemma ThenPairsAppend(done: seq<OperationData>, d: seq<OperationData>, later: Result<(seq<OperationData>, seq<int>), ParseError>)
    ensures ThenPairs(done, ThenPairs(d, later)) == ThenPairs(done + d, later)
    ensures ThenPairs([], later) == later
  {
    if later.Ok? {
      assert done + (d + later.value.0) == (done + d) + later.value.0;
      assert [] + later.value.0 == later.value.0;
    }
  }

  lemma ThenAppend(done: seq<seq<OperationData>>, d: seq<seq<OperationData>>, later: Result<seq<seq<OperationData>>, ParseError>)
    ensures Then(done, Then(d, later)) == Then(done + d, later)
    ensures Then([], later) == later
  {
    if later.Ok? {
      assert done + (d + later.value) == (done + d) + later.value;
      assert [] + later.value == later.value;
    }
  }

  lemma ReadPairsStep(line: seq<int>, idx: nat, k: nat)
    requires k > 0 && idx + 1 < |line|
    ensures ReadPairs(line[idx..], k)
            == ThenPairs([OperationData(line[idx], line[idx + 1])], ReadPairs(line[idx + 2..], k - 1))
  {
    assert line[idx..][2..] == line[idx + 2..];
  }

  lemma ReadOperationsStep(line: seq<int>, idx: nat, op: seq<OperationData>, next: nat)
    requires idx < |line| && next <= |line| && ReadPairs(line[idx + 1..], Count(line[idx])) == Ok((op, line[next..]))
    ensures ReadOperations(line[idx..]) == Then([op], ReadOperations(line[next..]))
  {
    assert line[idx..][1..] == line[idx + 1..];
  }

  /** The inner `for _ in range(num_eligible_machines)` loop, from `idx`. */
  method ReadOperation(line: seq<int>, idx: nat, numEligible: int) returns (r: Result<(seq<OperationData>, nat), ParseError>)
    requires idx <= |line|
    ensures r.Err? ==> ReadPairs(line[idx..], Count(numEligible)) == Err(r.error)
    ensures r.Ok? ==> r.value.1 <= |line| && ReadPairs(line[idx..], Count(numEligible)) == Ok((r.value.0, line[r.value.1..]))
  {
    var operation: seq<OperationData> := [];
    var i: nat := idx;
    var j: nat := 0;
    ThenPairsAppend([], [], ReadPairs(line[idx..], Count(numEligible)));
    while j < Count(numEligible)
      invariant j <= Count(numEligible) && i <= |line|
      invariant ReadPairs(line[idx..], Count(numEligible)) == ThenPairs(operation, ReadPairs(line[i..], Count(numEligible) - j))
    {
      if i + 1 >= |line| {
        ReadPairsShape(line[i..], Count(numEligible) - j);
        return Err(IndexError);
      }
      ReadPairsStep(line, i, Count(numEligible) - j);
      ThenPairsAppend(operation, [OperationData(line[i], line[i + 1])], ReadPairs(line[i + 2..], Count(numEligible) - j - 1));
      operation := operation + [OperationData(line[i], line[i + 1])];
      i := i + 2;
      j := j + 1;
    }
    assert operation + [] == operation;
    return Ok((operation, i));
  }

  /** `parse_fjsp_job_operation_data_line`: the `while idx < len(line)` loop and the final assertion. */
  method ParseJobOperationDataLine(line: seq<int>) returns (r: Result<seq<seq<OperationData>>, ParseError>)
    ensures r == JobLine(line)
  {
    if |line| == 0 {
      return Err(IndexError);
    }
    var numOperations := line[0];
    var operations: seq<seq<OperationData>> := [];
    var idx: nat := 1;
    ThenAppend([], [], ReadOperations(line[1..]));
    while idx < |line|
      invariant 1 <= idx <= |line|
      invariant ReadOperations(line[1..]) == Then(operations, ReadOperations(line[idx..]))
      decreases |line| - idx
    {
      var numEligible := line[idx];
      var op := ReadOperation(line, idx + 1, numEligible);
      if op.Err? {
        assert ReadOperations(line[idx..]) == Err(op.error) by {
          assert line[idx..][1..] == line[idx + 1..];
        }
        return Err(op.error);
      }
      ReadOperationsStep(line, idx, op.value.0, op.value.1);
      ThenAppend(operations, [op.value.0], ReadOperations(line[op.value.1..]));
      operations := operations + [op.value.0];
      idx := op.value.1;
    }
    assert line[idx..] == [];
    assert operations + [] == operations;
    if |operations| != numOperations {
      return Err(AssertionError);
    }
    return Ok(operations);
  }

  // ------------------------------------------------------------ parse_fjsp precedences

  /** `(idx, idx + 1)` for the `n - 1` consecutive pairs of a job whose first operation is `start`. */
  function Chain(start: int, n: int): (r: seq<(int, int)>)
    ensures |r| == Count(n - 1)
    ensures forall i :: 0 <= i < |r| ==> r[i] == (start + i, start + i + 1)
  {
    seq(Count(n - 1), i requires 0 <= i < Count(n - 1) => (start + i, start + i + 1))
  }

  /**
   * The precedences of jobs with `counts` operations, numbering from
   * `start`: each job adds its chain and then skips one more index.
   */
  function PrecedencesFrom(counts: seq<int>, start: int): seq<(int, int)>
  {
    if counts == [] then []
    else Chain(start, counts[0]) + PrecedencesFrom(counts[1..], start + Count(counts[0] - 1) + 1)
  }

  /** The number of operations of each job. */
  function Counts(jobs: seq<seq<seq<OperationData>>>): (r: seq<int>)
    ensures |r| == |jobs| && forall j :: 0 <= j < |jobs| ==> r[j] == |jobs[j]|
  {
    seq(|jobs|, j requires 0 <= j < |jobs| => |jobs[j]|)
  }

  /** The precedence loop of `parse_fjsp`. */
  method FjspPrecedences(jobs: seq<seq<seq<OperationData>>>) returns (precedences: seq<(int, int)>)
    ensures precedences == PrecedencesFrom(Counts(jobs), 0)
  {
    var counts := Counts(jobs);
    precedences := [];
    var idx: int := 0;
    var j: nat := 0;
    assert counts[0..] == counts;
    while j < |jobs|
      invariant j <= |jobs|
      invariant precedences + PrecedencesFrom(counts[j..], idx) == PrecedencesFrom(counts, 0)
    {
      PrecedencesNext(counts, j, idx, precedences);
      precedences, idx := AddChain(precedences, idx, |jobs[j]|);
      idx := idx + 1;
      j := j + 1;
    }
    assert precedences + [] == precedences;
  }

  /** The inner loop of `parse_fjsp`: the chain of one job with `n` operations from `idx` on. */
  method AddChain(before: seq<(int, int)>, start: int, n: int) returns (precedences: seq<(int, int)>, idx: int)
    ensures precedences == before + Chain(start, n)
    ensures idx == start + Count(n - 1)
  {
    precedences, idx := before, start;
    var i: nat := 0;
    while i < Count(n - 1)
      invariant i <= Count(n - 1) && idx == start + i
      invariant precedences == before + Chain(start, n)[..i]
    {
      assert Chain(start, n)[..i + 1] == Chain(start, n)[..i] + [(idx, idx + 1)];
      precedences := precedences + [(idx, idx + 1)];
      idx := idx + 1;
      i := i + 1;
    }
    assert Chain(start, n)[..i] == Chain(start, n);
  }

  /** One job of the precedence loop: its chain, then the later jobs one index further on. */
  lemma PrecedencesNext(counts: seq<int>, j: nat, idx: int, done: seq<(int, int)>)
    requires j < |counts|
    ensures done + PrecedencesFrom(counts[j..], idx)
            == (done + Chain(idx, counts[j])) + PrecedencesFrom(counts[j + 1..], idx + Count(counts[j] - 1) + 1)
  {
    assert counts[j..][1..] == counts[j + 1..];
  }

  /**
   * `parse_fjsp`: a header `num_jobs, num_machines, _`, then one job per
   * line, with the precedences numbered as intended (`IntendedPrecedences`):
   * as written, a job without operations shifts the later jobs' numbering.
   */
  function Fjsp(lines: seq<seq<int>>): (r: Result<ParsedData, ParseError>)
    ensures lines == [] ==> r == Err(IndexError)
    ensures lines != [] && |lines[0]| != 3 ==> r == Err(ValueError)
    ensures r.Ok? <==> lines != [] && |lines[0]| == 3 && JobLines(lines[1..]).Ok?
    ensures r.Ok? ==> r.value.numMachines == lines[0][1] && |r.value.jobs| == |lines| - 1
    ensures r.Ok? ==> forall j :: 0 <= j < |lines| - 1 ==> JobLine(lines[j + 1]) == Ok(r.value.jobs[j])
    ensures r.Ok? ==> r.value.precedence == IntendedPrecedences(Counts(r.value.jobs), 0)
    ensures r.Ok? ==> forall p :: p in r.value.precedence <==>
              exists j :: 0 <= j < |r.value.jobs| && InChain(p, Start(Counts(r.value.jobs), j), |r.value.jobs[j]|)
  {
    if lines == [] then Err(IndexError)
    else if |lines[0]| != 3 then Err(ValueError)
    else
      match JobLines(lines[1..])
      case Err(e) => Err(e)
      case Ok(jobs) =>
        FjspJobLines(lines, jobs);
        FjspChains(jobs);
        Ok(ParsedData(lines[0][1], jobs, IntendedPrecedences(Counts(jobs), 0)))
  }

  /** Job `j` of the parsed jobs is line `j + 1` parsed. */
  lemma FjspJobLines(lines: seq<seq<int>>, jobs: seq<seq<seq<OperationData>>>)
    requires lines != [] && JobLines(lines[1..]) == Ok(jobs)
    ensures |jobs| == |lines| - 1
    ensures forall j :: 0 <= j < |lines| - 1 ==> JobLine(lines[j + 1]) == Ok(jobs[j])
  {
    forall j | 0 <= j < |lines| - 1
      ensures JobLine(lines[j + 1]) == Ok(jobs[j])
    {
      assert lines[1..][j] == lines[j + 1];
    }
  }

  /** The intended precedences of `jobs` are exactly the chains of consecutive operations of one job. */
  lemma FjspChains(jobs: seq<seq<seq<OperationData>>>)
    ensures forall p :: p in IntendedPrecedences(Counts(jobs), 0) <==>
              exists j :: 0 <= j < |jobs| && InChain(p, Start(Counts(jobs), j), |jobs[j]|)
  {
    forall p
      ensures p in IntendedPrecedences(Counts(jobs), 0) <==>
                exists j :: 0 <= j < |jobs| && InChain(p, Start(Counts(jobs), j), |jobs[j]|)
    {
      var counts := Counts(jobs);
      IntendedWithinJobs(counts, 0, p);
      if p in IntendedPrecedences(counts, 0) {
        var j :| 0 <= j < |counts| && InChain(p, 0 + Start(counts, j), counts[j]);
        assert InChain(p, Start(counts, j), |jobs[j]|);
      } else {
        forall j | 0 <= j < |jobs|
          ensures !InChain(p, Start(counts, j), |jobs[j]|)
        {
          assert counts[j] == |jobs[j]|;
        }
      }
    }
  }

  /** `[parse_fjsp_job_operation_data_line(line) for line in lines]`. */
  function JobLines(lines: seq<seq<int>>): (r: Result<seq<seq<seq<OperationData>>>, ParseError>)
    ensures r.Ok? ==> |r.value| == |lines| && forall j :: 0 <= j < |lines| ==> JobLine(lines[j]) == Ok(r.value[j])
  {
    if lines == [] then Ok([])
    else
      match JobLine(lines[0])
      case Err(e) => Err(e)
      case Ok(job) =>
        match JobLines(lines[1..])
        case Err(e) => Err(e)
        case Ok(jobs) => Ok([job] + jobs)
  }

  /** The global index of the first operation of job `j`: the operations of the jobs before it. */
  function Start(counts: seq<int>, j: nat): int
    requires j <= |counts|
  {
    if j == 0 then 0 else Start(counts, j - 1) + counts[j - 1]
  }

  lemma {:induction false} StartTail(counts: seq<int>, j: nat)
    requires 0 < j <= |counts|
    ensures Start(counts, j) == counts[0] + Start(counts[1..], j - 1)
  {
    if j > 1 {
      StartTail(counts, j - 1);
    }
  }

  predicate InChain(p: (int, int), start: int, n: int)
  {
    start <= p.0 < start + n - 1 && p.1 == p.0 + 1
  }

  /** The chain of a job holds exactly the pairs of its consecutive operations. */
  lemma ChainMember(p: (int, int), start: int, n: int)
    ensures p in Chain(start, n) <==> InChain(p, start, n)
  {
    if InChain(p, start, n) {
      assert Chain(start, n)[p.0 - start] == p;
    }
  }

  /** Each precedence lies within one job. */
  lemma {:induction false} PrecedenceJob(counts: seq<int>, start: int, p: (int, int)) returns (j: nat)
    requires forall i :: 0 <= i < |counts| ==> counts[i] >= 1
    requires p in PrecedencesFrom(counts, start)
    ensures j < |counts| && InChain(p, start + Start(counts, j), counts[j])
  {
    ChainMember(p, start, counts[0]);
    if p in Chain(start, counts[0]) {
      j := 0;
    } else {
      var tail := counts[1..];
      var k := PrecedenceJob(tail, start + counts[0], p);
      StartTail(counts, k + 1);
      j := k + 1;
    }
  }

  /** Each pair of consecutive operations within a job is a precedence. */
  lemma {:induction false} JobPrecedence(counts: seq<int>, start: int, p: (int, int), j: nat)
    requires forall i :: 0 <= i < |counts| ==> counts[i] >= 1
    requires j < |counts| && InChain(p, start + Start(counts, j), counts[j])
    ensures p in PrecedencesFrom(counts, start)
  {
    if j == 0 {
      ChainMember(p, start, counts[0]);
    } else {
      StartTail(counts, j);
      JobPrecedence(counts[1..], start + counts[0], p, j - 1);
    }
  }

  /**
   * When every job has an operation, the precedences are exactly the pairs
   * of consecutive operations within one job, in the global numbering that
   * lists the jobs' operations one after another.
   */
  lemma PrecedencesWithinJobs(counts: seq<int>, start: int, p: (int, int))
    requires forall j :: 0 <= j < |counts| ==> counts[j] >= 1
    ensures p in PrecedencesFrom(counts, start)
            <==> exists j :: 0 <= j < |counts| && InChain(p, start + Start(counts, j), counts[j])
  {
    if p in PrecedencesFrom(counts, start) {
      var j := PrecedenceJob(counts, start, p);
      assert 0 <= j < |counts| && InChain(p, start + Start(counts, j), counts[j]);
    } else if exists j :: 0 <= j < |counts| && InChain(p, start + Start(counts, j), counts[j]) {
      var j :| 0 <= j < |counts| && InChain(p, start + Start(counts, j), counts[j]);
      JobPrecedence(counts, start, p, j);
      assert false;
    }
  }

  /** The total `Σ (n_j - 1)` over jobs with `n_j >= 1`. */
  function Links(counts: seq<int>): int
  {
    if counts == [] then 0 else Count(counts[0] - 1) + Links(counts[1..])
  }

  lemma {:induction false} PrecedenceCount(counts: seq<int>, start: int)
    ensures |PrecedencesFrom(counts, start)| == Links(counts)
  {
    if counts != [] {
      PrecedenceCount(counts[1..], start + Count(counts[0] - 1) + 1);
    }
  }

  /**
   * A job without operations still advances the numbering by one, so the
   * precedences of a later job point one index too far.
   */
  lemma EmptyJobShiftsNumbering()
    ensures PrecedencesFrom([0, 2], 0) == [(1, 2)]
  {
    assert PrecedencesFrom([2], 1) == [(1, 2)] by {
      assert PrecedencesFrom([], 3) == [];
    }
  }

  /**
   * The numbering the loop evidently intends: after each job the index
   * advances by its number of operations, so the next job starts at its own
   * first operation even when a job has none.
   */
  function IntendedPrecedences(counts: seq<int>, start: int): seq<(int, int)>
  {
    if counts == [] then []
    else Chain(start, counts[0]) + IntendedPrecedences(counts[1..], start + Count(counts[0]))
  }

  /** For jobs that all have an operation, the loop as written and the intended numbering agree. */
  lemma {:induction false} IntendedAgreesOnNonEmptyJobs(counts: seq<int>, start: int)
    requires forall j :: 0 <= j < |counts| ==> counts[j] >= 1
    ensures PrecedencesFrom(counts, start) == IntendedPrecedences(counts, start)
  {
    if counts != [] {
      IntendedAgreesOnNonEmptyJobs(counts[1..], start + counts[0]);
    }
  }

  /** With the intended numbering the job after an empty one keeps its own indices. */
  lemma EmptyJobKeepsNumbering()
    ensures IntendedPrecedences([0, 2], 0) == [(0, 1)]
  {
    assert IntendedPrecedences([2], 0) == [(0, 1)] by {
      assert IntendedPrecedences([], 2) == [];
    }
  }

  lemma {:induction false} IntendedJob(counts: seq<int>, start: int, p: (int, int)) returns (j: nat)
    requires forall i :: 0 <= i < |counts| ==> counts[i] >= 0
    requires p in IntendedPrecedences(counts, start)
    ensures j < |counts| && InChain(p, start + Start(counts, j), counts[j])
  {
    ChainMember(p, start, counts[0]);
    if p in Chain(start, counts[0]) {
      j := 0;
    } else {
      var k := IntendedJob(counts[1..], start + counts[0], p);
      StartTail(counts, k + 1);
      j := k + 1;
    }
  }

  lemma {:induction false} JobIntended(counts: seq<int>, start: int, p: (int, int), j: nat)
    requires forall i :: 0 <= i < |counts| ==> counts[i] >= 0
    requires j < |counts| && InChain(p, start + Start(counts, j), counts[j])
    ensures p in IntendedPrecedences(counts, start)
  {
    if j == 0 {
      ChainMember(p, start, counts[0]);
    } else {
      StartTail(counts, j);
      JobIntended(counts[1..], start + counts[0], p, j - 1);
    }
  }

  /**
   * With the intended numbering, for any job lengths (empty jobs included),
   * the precedences are exactly the pairs of consecutive operations within
   * one job.
   */
  lemma IntendedWithinJobs(counts: seq<int>, start: int, p: (int, int))
    requires forall j :: 0 <= j < |counts| ==> counts[j] >= 0
    ensures p in IntendedPrecedences(counts, start)
            <==> exists j :: 0 <= j < |counts| && InChain(p, start + Start(counts, j), counts[j])
  {
    if p in IntendedPrecedences(counts, start) {
      var j := IntendedJob(counts, start, p);
      assert 0 <= j < |counts| && InChain(p, start + Start(counts, j), counts[j]);
    } else if exists j :: 0 <= j < |counts| && InChain(p, start + Start(counts, j), counts[j]) {
      var j :| 0 <= j < |counts| && InChain(p, start + Start(counts, j), counts[j]);
      JobIntended(counts, start, p, j);
      assert false;
    }
  }

  // ------------------------------------------------------------ naderi2022

  /** The data `parse_naderi2022` derives before building the model. */
  datatype NaderiData = NaderiData(
    numJobs: int,
    numMachines: int,
    numOperations: int,
    processingTimes: seq<seq<int>>,
    precedence: seq<(int, int)>)

  function Sum(xs: seq<int>): int
  {
    if xs == [] then 0 else Sum(xs[..|xs| - 1]) + xs[|xs| - 1]
  }

  /** `np.cumsum([0] + counts)`: entry `i` is the sum of the first `i` counts. */
  function Cumul(counts: seq<int>): (r: seq<int>)
    ensures |r| == |counts| + 1 && forall i :: 0 <= i <= |counts| ==> r[i] == Sum(counts[..i])
  {
    seq(|counts| + 1, i requires 0 <= i <= |counts| => Sum(counts[..i]))
  }

  /** `np.where(times, times, MAX_INT)`: zeros become `MAX_INT`. */
  function NonZero(times: seq<seq<int>>): (r: seq<seq<int>>)
    ensures |r| == |times|
    ensures forall o, m :: 0 <= o < |times| && 0 <= m < |times[o]| ==>
              |r[o]| == |times[o]| && r[o][m] == if times[o][m] == 0 then MAX_INT else times[o][m]
  {
    seq(|times|, o requires 0 <= o < |times| =>
      seq(|times[o]|, m requires 0 <= m < |times[o]| => if times[o][m] == 0 then MAX_INT else times[o][m]))
  }

  /** `(op, op + 1)` for `op in range(lo, hi - 1)`. */
  function Arcs(lo: int, hi: int): (r: seq<(int, int)>)
    ensures forall p :: p in r <==> lo <= p.0 < hi - 1 && p.1 == p.0 + 1
  {
    var n := Count(hi - 1 - lo);
    var r := seq(n, i requires 0 <= i < n => (lo + i, lo + i + 1));
    assert forall p: (int, int) :: lo <= p.0 < hi - 1 && p.1 == p.0 + 1 ==> r[p.0 - lo] == p;
    r
  }

  /** The arcs of jobs `0 .. k - 1`. */
  function JobArcs(cumul: seq<int>, k: nat): (r: seq<(int, int)>)
    requires k < |cumul|
    ensures forall p :: p in r <==> exists j :: 0 <= j < k && First(cumul, j) <= p.0 < cumul[j + 1] - 1 && p.1 == p.0 + 1
  {
    if k == 0 then []
    else
      var init := JobArcs(cumul, k - 1);
      assert forall p :: p in Arcs(cumul[k - 1], cumul[k]) <==> First(cumul, k - 1) <= p.0 < cumul[k] - 1 && p.1 == p.0 + 1;
      init + Arcs(cumul[k - 1], cumul[k])
  }

  /** `cumul[j]`, the first operation of job `j`. */
  function First(cumul: seq<int>, j: nat): int
    requires j < |cumul|
  {
    cumul[j]
  }

  /** The data part of `parse_naderi2022`. */
  function Naderi(lines: seq<seq<int>>): (r: Result<NaderiData, ParseError>)
    ensures r.Ok? <==> |lines| >= 3 && lines[0] != [] && lines[1] != [] && lines[0][0] <= |lines[2]|
    ensures r.Ok? ==> r.value.numJobs == lines[0][0] && r.value.numMachines == lines[1][0]
                      && r.value.numOperations == Sum(lines[2]) && |r.value.processingTimes| == |lines| - 3
  {
    if |lines| < 3 || lines[0] == [] || lines[1] == [] then Err(IndexError)
    else
      var numJobs := lines[0][0];
      var counts := lines[2];
      var cumul := Cumul(counts);
      if numJobs > |counts| then Err(IndexError)
      else
        Ok(NaderiData(numJobs, lines[1][0], Sum(counts), NonZero(lines[3..]), JobArcs(cumul, Count(numJobs))))
  }

  /**
   * In naderi2022 data, every processing time is the listed one or, where the
   * listed one is zero, `MAX_INT`; none is zero.
   */
  lemma NaderiTimes(lines: seq<seq<int>>, o: nat, m: nat)
    requires Naderi(lines).Ok?
    requires var d := Naderi(lines).value; o < |d.processingTimes| && m < |d.processingTimes[o]|
    ensures 3 + o < |lines| && m < |lines[3 + o]|
    ensures var t := Naderi(lines).value.processingTimes[o][m];
            t != 0 && t == if lines[3 + o][m] == 0 then MAX_INT else lines[3 + o][m]
  {
    assert lines[3..][o] == lines[3 + o];
  }

  /**
   * The naderi2022 arcs are the consecutive pairs of operations of one job,
   * job `j` owning the operations from the sum of the counts before it up to
   * the sum including its own.
   */
  lemma NaderiArcs(lines: seq<seq<int>>, p: (int, int))
    requires Naderi(lines).Ok?
    ensures var d := Naderi(lines).value;
            p in d.precedence <==> exists j :: 0 <= j < d.numJobs && OwnArc(lines[2], j, p)
  {
    var d := Naderi(lines).value;
    var counts := lines[2];
    var cumul := Cumul(counts);
    assert d.precedence == JobArcs(cumul, Count(d.numJobs));
    if p in d.precedence {
      var j :| 0 <= j < Count(d.numJobs) && First(cumul, j) <= p.0 < cumul[j + 1] - 1 && p.1 == p.0 + 1;
      assert OwnArc(counts, j, p);
    }
    if exists j :: 0 <= j < d.numJobs && OwnArc(counts, j, p) {
      var j :| 0 <= j < d.numJobs && OwnArc(counts, j, p);
      assert First(cumul, j) <= p.0 < cumul[j + 1] - 1;
    }
  }

  /** `p` links two consecutive operations of job `j`, given the operation counts. */
  predicate OwnArc(counts: seq<int>, j: nat, p: (int, int))
    requires j < |counts|
  {
    Sum(counts[..j]) <= p.0 < Sum(counts[..j + 1]) - 1 && p.1 == p.0 + 1
  }

  // ------------------------------------------------------------ convert_to_model

  /** Python's `xs[i]` on a list of length `n`: negative indices count from the end. */
  function PyIndex(i: int, n: nat): Option<nat>
  {
    if 0 <= i < n then Some(i) else if -(n as int) <= i < 0 then Some(n + i) else None
  }

  /** One `add_processing_time(machines[machine - 1], operation, duration)` call, by index. */
  datatype ProcessingCall = ProcessingCall(machine: nat, operation: nat, duration: int)

  /** The builder calls `convert_to_model` makes, with every handle replaced by its index. */
  datatype Converted = Converted(
    numJobs: nat,
    numMachines: nat,
    operationJobs: seq<nat>,
    processing: seq<ProcessingCall>,
    precedences: seq<(nat, nat)>)

  /**
   * `job`'s operations, the first with global index `first`, and their
   * processing-time calls, with machine numbers outside `1 .. n` refused as
   * intended (`IntendedMachineCalls`).
   */
  function OperationCalls(job: seq<seq<OperationData>>, first: nat, numMachines: nat): (r: Result<seq<ProcessingCall>, ParseError>)
    ensures r.Ok? <==> JobMachinesInRange(job, numMachines)
    ensures r.Ok? ==> forall c :: c in r.value ==> c.machine < numMachines && first <= c.operation < first + |job|
    ensures r.Ok? ==> |r.value| == CallsBefore(job, |job|) && CallsInOrder(job, first, r.value)
    decreases |job|
  {
    if job == [] then Ok([])
    else
      assert forall o :: 0 <= o < |job| - 1 ==> job[1..][o] == job[o + 1];
      match IntendedMachineCalls(job[0], first, numMachines)
      case Err(e) => Err(e)
      case Ok(calls) =>
        match OperationCalls(job[1..], first + 1, numMachines)
        case Err(e) => Err(e)
        case Ok(rest) =>
          assert (calls + rest)[|calls|..] == rest;
          Ok(calls + rest)
  }

  /** The number of calls for the operations before `o`: their eligible machines together. */
  function CallsBefore(job: seq<seq<OperationData>>, o: nat): nat
    requires o <= |job|
  {
    if o == 0 then 0 else |job[0]| + CallsBefore(job[1..], o - 1)
  }

  /** Every call position falls among the calls of one operation. */
  lemma {:induction false} LocateCall(job: seq<seq<OperationData>>, i: int) returns (o: nat)
    requires 0 <= i < CallsBefore(job, |job|)
    ensures o < |job| && CallsBefore(job, o) <= i < CallsBefore(job, o) + |job[o]|
  {
    if i >= |job[0]| {
      var o' := LocateCall(job[1..], i - |job[0]|);
      o := o' + 1;
      assert job[1..][o'] == job[o];
    } else {
      o := 0;
    }
  }

  /** `c` is `add_processing_time(machines[op.machine - 1], operations[operation], op.processing_time)`, by index. */
  predicate IsCall(c: ProcessingCall, op: OperationData, operation: int)
  {
    c.machine == op.machine - 1 && c.operation == operation && c.duration == op.processingTime
  }

  /**
   * Some call in `calls` is the one for the `k`-th eligible machine of
   * operation `o` of job `j`, that operation numbered `Start(Counts(jobs), j) + o`
   * after `first`.
   */
  predicate CallListed(calls: seq<ProcessingCall>, jobs: seq<seq<seq<OperationData>>>, first: int, j: int, o: int, k: int)
    requires 0 <= j < |jobs| && 0 <= o < |jobs[j]| && 0 <= k < |jobs[j][o]|
  {
    exists c :: c in calls && IsCall(c, jobs[j][o][k], first + Start(Counts(jobs), j) + o)
  }

  /**
   * The calls come operation by operation, and machine by machine within
   * one: first those of operation `first`, one per eligible machine, then
   * those of the rest.
   */
  predicate CallsInOrder(job: seq<seq<OperationData>>, first: int, calls: seq<ProcessingCall>)
    decreases |job|
  {
    if job == [] then calls == []
    else
      |job[0]| <= |calls|
      && (forall k :: 0 <= k < |job[0]| ==> IsCall(calls[k], job[0][k], first))
      && CallsInOrder(job[1..], first + 1, calls[|job[0]|..])
  }

  /** Calls in order place the call for eligible machine `k` of operation `o` at `CallsBefore(job, o) + k`. */
  lemma {:induction false} CallsInOrderAt(job: seq<seq<OperationData>>, first: int, calls: seq<ProcessingCall>, o: nat, k: nat)
    requires CallsInOrder(job, first, calls) && o < |job| && k < |job[o]|
    ensures CallsBefore(job, o) + k < |calls|
    ensures IsCall(calls[CallsBefore(job, o) + k], job[o][k], first + o)
  {
    if o > 0 {
      var rest := calls[|job[0]|..];
      assert job[1..][o - 1] == job[o];
      CallsInOrderAt(job[1..], first + 1, rest, o - 1, k);
      assert calls[CallsBefore(job, o) + k] == rest[CallsBefore(job[1..], o - 1) + k];
    }
  }

  /** Calls in order hold exactly one call per eligible machine. */
  lemma {:induction false} CallsInOrderLength(job: seq<seq<OperationData>>, first: int, calls: seq<ProcessingCall>)
    requires CallsInOrder(job, first, calls)
    ensures |calls| == CallsBefore(job, |job|)
  {
    if job != [] {
      CallsInOrderLength(job[1..], first + 1, calls[|job[0]|..]);
    }
  }

  /** Conversely, each of the calls in order is the call for one eligible machine of one operation. */
  lemma CallsInOrderOrigin(job: seq<seq<OperationData>>, first: int, calls: seq<ProcessingCall>, i: int)
    returns (o: nat, k: nat)
    requires CallsInOrder(job, first, calls) && 0 <= i < |calls|
    ensures o < |job| && k < |job[o]| && IsCall(calls[i], job[o][k], first + o)
  {
    CallsInOrderLength(job, first, calls);
    o := LocateCall(job, i);
    k := i - CallsBefore(job, o);
    CallsInOrderAt(job, first, calls, o, k);
  }

  /** Every call of an operation list is the call of one of its operations for one of its eligible machines. */
  lemma OperationCallsListed(job: seq<seq<OperationData>>, first: nat, numMachines: nat, i: nat)
    requires OperationCalls(job, first, numMachines).Ok? && i < |OperationCalls(job, first, numMachines).value|
    ensures exists o, k :: 0 <= o < |job| && 0 <= k < |job[o]|
              && IsCall(OperationCalls(job, first, numMachines).value[i], job[o][k], first + o)
  {
    var o, k := CallsInOrderOrigin(job, first, OperationCalls(job, first, numMachines).value, i);
  }

  /** Every index below the total of non-negative counts falls in the range of one count. */
  lemma {:induction false} LocateStart(counts: seq<int>, i: int) returns (j: nat)
    requires forall x :: 0 <= x < |counts| ==> counts[x] >= 0
    requires 0 <= i < Start(counts, |counts|)
    ensures j < |counts| && Start(counts, j) <= i < Start(counts, j) + counts[j]
  {
    var init := counts[..|counts| - 1];
    if i >= Start(counts, |counts| - 1) {
      j := |counts| - 1;
    } else {
      StartPrefix(counts, init, |init|);
      j := LocateStart(init, i);
      StartPrefix(counts, init, j);
    }
  }

  /** Every machine number of `job` lies in `1 .. numMachines`. */
  predicate JobMachinesInRange(job: seq<seq<OperationData>>, numMachines: nat)
  {
    forall o, k :: 0 <= o < |job| && 0 <= k < |job[o]| ==> 1 <= job[o][k].machine <= numMachines
  }

  /** Every machine number of every job lies in `1 .. numMachines`. */
  predicate MachinesInRange(jobs: seq<seq<seq<OperationData>>>, numMachines: nat)
  {
    forall j :: 0 <= j < |jobs| ==> JobMachinesInRange(jobs[j], numMachines)
  }

  /** The calls for one operation: `machines[op_data.machine - 1]` for each eligible machine. */
  function MachineCalls(op: seq<OperationData>, operation: nat, numMachines: nat): (r: Result<seq<ProcessingCall>, ParseError>)
    ensures r.Ok? <==> forall k :: 0 <= k < |op| ==> PyIndex(op[k].machine - 1, numMachines).Some?
    ensures r.Ok? ==> |r.value| == |op| && forall k :: 0 <= k < |op| ==>
              r.value[k] == ProcessingCall(PyIndex(op[k].machine - 1, numMachines).value, operation, op[k].processingTime)
  {
    if op == [] then Ok([])
    else
      var init := op[..|op| - 1];
      var last := op[|op| - 1];
      assert forall k :: 0 <= k < |init| ==> init[k] == op[k];
      match MachineCalls(init, operation, numMachines)
      case Err(e) => Err(e)
      case Ok(calls) =>
        match PyIndex(last.machine - 1, numMachines)
        case None => Err(IndexError)
        case Some(m) => Ok(calls + [ProcessingCall(m, operation, last.processingTime)])
  }

  /**
   * The intended mapping of 1-based machine numbers: a number outside
   * `1 .. numMachines` is refused instead of wrapping round to the end of
   * the machine list.
   */
  function IntendedMachineCalls(op: seq<OperationData>, operation: nat, numMachines: nat): (r: Result<seq<ProcessingCall>, ParseError>)
    ensures r.Ok? <==> forall k :: 0 <= k < |op| ==> 1 <= op[k].machine <= numMachines
    ensures r.Ok? ==> |r.value| == |op| && forall k :: 0 <= k < |op| ==>
              r.value[k] == ProcessingCall(op[k].machine - 1, operation, op[k].processingTime)
  {
    if forall k :: 0 <= k < |op| ==> 1 <= op[k].machine <= numMachines then
      Ok(seq(|op|, k requires 0 <= k < |op| && 1 <= op[k].machine =>
        ProcessingCall(op[k].machine - 1, operation, op[k].processingTime)))
    else Err(IndexError)
  }

  /** On machine numbers in `1 .. numMachines` the intended mapping and the one as written agree. */
  lemma IntendedAgreesInRange(op: seq<OperationData>, operation: nat, numMachines: nat)
    requires forall k :: 0 <= k < |op| ==> 1 <= op[k].machine <= numMachines
    ensures MachineCalls(op, operation, numMachines) == IntendedMachineCalls(op, operation, numMachines)
  {
    var r := MachineCalls(op, operation, numMachines);
    assert forall k :: 0 <= k < |op| ==> PyIndex(op[k].machine - 1, numMachines) == Some(op[k].machine - 1);
    assert r.Ok?;
    assert r.value == IntendedMachineCalls(op, operation, numMachines).value;
  }

  /** Machine number 0 is refused by the intended mapping. */
  lemma MachineZeroRefused(operation: nat, numMachines: nat, time: int)
    ensures IntendedMachineCalls([OperationData(0, time)], operation, numMachines).Err?
  {
    assert !(1 <= [OperationData(0, time)][0].machine);
  }

  /**
   * The calls of all jobs, numbering operations globally from `first`: the
   * loop over the jobs and, inside it, over their operations visits the
   * operations of all jobs one after the other.
   */
  function JobCalls(jobs: seq<seq<seq<OperationData>>>, first: nat, numMachines: nat): (r: Result<seq<ProcessingCall>, ParseError>)
    ensures r.Ok? <==> MachinesInRange(jobs, numMachines)
    ensures r.Ok? ==> forall c :: c in r.value ==>
              c.machine < numMachines && first <= c.operation < first + Start(Counts(jobs), |jobs|)
  {
    OperationsInRange(jobs, numMachines);
    OperationsLength(jobs);
    OperationCalls(Operations(jobs), first, numMachines)
  }

  /** The operations of all jobs, one after the other, in the global numbering. */
  function Operations(jobs: seq<seq<seq<OperationData>>>): seq<seq<OperationData>>
    decreases |jobs|
  {
    if jobs == [] then [] else jobs[0] + Operations(jobs[1..])
  }

  /** There are as many operations as the jobs have together. */
  lemma {:induction false} OperationsLength(jobs: seq<seq<seq<OperationData>>>)
    ensures |Operations(jobs)| == Start(Counts(jobs), |jobs|)
  {
    if jobs != [] {
      OperationsLength(jobs[1..]);
      CountsStartTail(jobs, |jobs|);
    }
  }

  /** Dropping the first job moves every later job's start down by that job's operation count. */
  lemma CountsStartTail(jobs: seq<seq<seq<OperationData>>>, j: nat)
    requires 0 < j <= |jobs|
    ensures Start(Counts(jobs), j) == |jobs[0]| + Start(Counts(jobs[1..]), j - 1)
    ensures 0 <= Start(Counts(jobs[1..]), j - 1)
  {
    assert Counts(jobs)[1..] == Counts(jobs[1..]);
    StartTail(Counts(jobs), j);
    StartMono(Counts(jobs[1..]), j - 1);
  }

  /** Operation `o` of job `j` is operation `Start(j) + o` of all jobs. */
  lemma {:induction false} OperationsAt(jobs: seq<seq<seq<OperationData>>>, j: nat, o: nat)
    requires j < |jobs| && o < |jobs[j]|
    ensures 0 <= Start(Counts(jobs), j) + o < |Operations(jobs)|
    ensures Operations(jobs)[Start(Counts(jobs), j) + o] == jobs[j][o]
  {
    var rest := Operations(jobs[1..]);
    assert Operations(jobs) == jobs[0] + rest;
    if j == 0 {
      assert Start(Counts(jobs), 0) == 0;
      assert (jobs[0] + rest)[o] == jobs[0][o];
    } else {
      assert jobs[1..][j - 1] == jobs[j];
      OperationsAt(jobs[1..], j - 1, o);
      CountsStartTail(jobs, j);
      var i := Start(Counts(jobs[1..]), j - 1) + o;
      assert rest[i] == jobs[j][o];
      assert (jobs[0] + rest)[|jobs[0]| + i] == rest[i];
    }
  }

  /** The calls of all jobs are those of their operations one after the other. */
  lemma JobCallsFlat(jobs: seq<seq<seq<OperationData>>>, first: nat, numMachines: nat)
    ensures JobCalls(jobs, first, numMachines) == OperationCalls(Operations(jobs), first, numMachines)
  {
  }

  /** The machine numbers of all operations are in range exactly when those of every job are. */
  lemma OperationsInRange(jobs: seq<seq<seq<OperationData>>>, numMachines: nat)
    ensures JobMachinesInRange(Operations(jobs), numMachines) <==> MachinesInRange(jobs, numMachines)
  {
    var ops := Operations(jobs);
    if JobMachinesInRange(ops, numMachines) {
      forall j | 0 <= j < |jobs|
        ensures JobMachinesInRange(jobs[j], numMachines)
      {
        forall o, k | 0 <= o < |jobs[j]| && 0 <= k < |jobs[j][o]|
          ensures 1 <= jobs[j][o][k].machine <= numMachines
        {
          OperationsAt(jobs, j, o);
          assert ops[Start(Counts(jobs), j) + o][k] == jobs[j][o][k];
        }
      }
    }
    if MachinesInRange(jobs, numMachines) {
      forall g, k | 0 <= g < |ops| && 0 <= k < |ops[g]|
        ensures 1 <= ops[g][k].machine <= numMachines
      {
        var j, o := OperationOrigin(jobs, g);
        assert JobMachinesInRange(jobs[j], numMachines);
      }
    }
  }

  /**
   * Operation `o` of job `j` is operation `Start(Counts(jobs), j) + o` of all
   * jobs, numbered from `first`, and its call for each eligible machine is
   * among the calls.
   */
  lemma JobCallsAt(jobs: seq<seq<seq<OperationData>>>, first: nat, numMachines: nat, calls: seq<ProcessingCall>, j: nat, o: nat, k: nat)
    requires JobCalls(jobs, first, numMachines) == Ok(calls)
    requires j < |jobs| && o < |jobs[j]| && k < |jobs[j][o]|
    ensures CallListed(calls, jobs, first, j, o, k)
  {
    var ops := Operations(jobs);
    var g := Start(Counts(jobs), j) + o;
    JobCallsFlat(jobs, first, numMachines);
    OperationsAt(jobs, j, o);
    CallsInOrderAt(ops, first, calls, g, k);
    assert calls[CallsBefore(ops, g) + k] in calls;
  }

  /** `JobCallsAt` for every operation of every job and every eligible machine. */
  lemma JobCallsCover(jobs: seq<seq<seq<OperationData>>>, first: nat, numMachines: nat, calls: seq<ProcessingCall>)
    requires JobCalls(jobs, first, numMachines) == Ok(calls)
    ensures forall j, o, k :: 0 <= j < |jobs| && 0 <= o < |jobs[j]| && 0 <= k < |jobs[j][o]| ==>
              CallListed(calls, jobs, first, j, o, k)
  {
    forall j, o, k | 0 <= j < |jobs| && 0 <= o < |jobs[j]| && 0 <= k < |jobs[j][o]|
      ensures CallListed(calls, jobs, first, j, o, k)
    {
      JobCallsAt(jobs, first, numMachines, calls, j, o, k);
    }
  }

  /** Conversely, every call is the call of one operation of one job for one of its eligible machines. */
  lemma JobCallsListed(jobs: seq<seq<seq<OperationData>>>, first: nat, numMachines: nat, calls: seq<ProcessingCall>, i: nat)
    requires JobCalls(jobs, first, numMachines) == Ok(calls) && i < |calls|
    ensures exists j, o, k :: 0 <= j < |jobs| && 0 <= o < |jobs[j]| && 0 <= k < |jobs[j][o]|
              && IsCall(calls[i], jobs[j][o][k], first + Start(Counts(jobs), j) + o)
  {
    var j, o, k := JobCallOrigin(jobs, first, numMachines, calls, i);
  }

  /** The job, operation and machine `JobCallsListed` finds call `i` to be for. */
  lemma JobCallOrigin(jobs: seq<seq<seq<OperationData>>>, first: nat, numMachines: nat, calls: seq<ProcessingCall>, i: nat)
    returns (j: nat, o: nat, k: nat)
    requires JobCalls(jobs, first, numMachines) == Ok(calls) && i < |calls|
    ensures j < |jobs| && o < |jobs[j]| && k < |jobs[j][o]|
    ensures IsCall(calls[i], jobs[j][o][k], first + Start(Counts(jobs), j) + o)
  {
    JobCallsFlat(jobs, first, numMachines);
    var g;
    g, k := CallsInOrderOrigin(Operations(jobs), first, calls, i);
    j, o := OperationOrigin(jobs, g);
  }

  /** Each operation of the global list is operation `o` of some job `j`. */
  lemma OperationOrigin(jobs: seq<seq<seq<OperationData>>>, g: int) returns (j: nat, o: nat)
    requires 0 <= g < |Operations(jobs)|
    ensures j < |jobs| && o < |jobs[j]| && g == Start(Counts(jobs), j) + o
    ensures Operations(jobs)[g] == jobs[j][o]
  {
    OperationsLength(jobs);
    j := LocateStart(Counts(jobs), g);
    o := g - Start(Counts(jobs), j);
    OperationsAt(jobs, j, o);
  }

  /** The job of each operation, in the global order. */
  function OperationJobs(jobs: seq<seq<seq<OperationData>>>): (r: seq<nat>)
    ensures |r| == Start(Counts(jobs), |jobs|)
  {
    if jobs == [] then []
    else
      var init := jobs[..|jobs| - 1];
      assert Counts(jobs)[..|init|] == Counts(init);
      StartPrefix(Counts(jobs), Counts(init), |init|);
      OperationJobs(init) + seq(|jobs[|jobs| - 1]|, _ => |jobs| - 1)
  }

  lemma {:induction false} StartPrefix(counts: seq<int>, init: seq<int>, k: nat)
    requires k <= |init| <= |counts| && init == counts[..|init|]
    ensures Start(counts, k) == Start(init, k)
  {
    if k > 0 {
      StartPrefix(counts, init, k - 1);
      assert counts[k - 1] == init[k - 1];
    }
  }

  /** `operations[frm], operations[to]` for each precedence. */
  function PrecedenceCalls(precedence: seq<(int, int)>, numOperations: nat): (r: Result<seq<(nat, nat)>, ParseError>)
    ensures r.Ok? <==> forall k :: 0 <= k < |precedence| ==>
              PyIndex(precedence[k].0, numOperations).Some? && PyIndex(precedence[k].1, numOperations).Some?
    ensures r.Ok? ==> |r.value| == |precedence| && forall k :: 0 <= k < |precedence| ==>
              PyIndex(precedence[k].0, numOperations) == Some(r.value[k].0)
              && PyIndex(precedence[k].1, numOperations) == Some(r.value[k].1)
  {
    if precedence == [] then Ok([])
    else
      var init := precedence[..|precedence| - 1];
      var (frm, to) := precedence[|precedence| - 1];
      match PrecedenceCalls(init, numOperations)
      case Err(e) => Err(e)
      case Ok(calls) =>
        match PyIndex(frm, numOperations)
        case None => Err(IndexError)
        case Some(a) =>
          match PyIndex(to, numOperations)
          case None => Err(IndexError)
          case Some(b) => Ok(calls + [(a, b)])
  }

  /** `convert_to_model`, by index. */
  function ConvertToModel(data: ParsedData): (r: Result<Converted, ParseError>)
    ensures r.Ok? <==> MachinesInRange(data.jobs, Count(data.numMachines))
                       && PrecedenceCalls(data.precedence, |OperationJobs(data.jobs)|).Ok?
    ensures r.Ok? ==> r.value.numJobs == |data.jobs| && r.value.numMachines == Count(data.numMachines)
                      && |r.value.operationJobs| == Start(Counts(data.jobs), |data.jobs|)
    ensures r.Ok? ==> forall c :: c in r.value.processing ==>
              c.machine < r.value.numMachines && c.operation < |r.value.operationJobs|
    ensures r.Ok? ==> forall j, o, k :: 0 <= j < |data.jobs| && 0 <= o < |data.jobs[j]| && 0 <= k < |data.jobs[j][o]| ==>
              CallListed(r.value.processing, data.jobs, 0, j, o, k)
    ensures r.Ok? ==> |r.value.precedences| == |data.precedence| && forall k :: 0 <= k < |data.precedence| ==>
              PyIndex(data.precedence[k].0, |r.value.operationJobs|) == Some(r.value.precedences[k].0)
              && PyIndex(data.precedence[k].1, |r.value.operationJobs|) == Some(r.value.precedences[k].1)
  {
    var numMachines := Count(data.numMachines);
    var operationJobs := OperationJobs(data.jobs);
    match JobCalls(data.jobs, 0, numMachines)
    case Err(e) => Err(e)
    case Ok(processing) =>
      JobCallsCover(data.jobs, 0, numMachines, processing);
      match PrecedenceCalls(data.precedence, |operationJobs|)
      case Err(e) => Err(e)
      case Ok(precedences) => Ok(Converted(|data.jobs|, numMachines, operationJobs, processing, precedences))
  }

  /**
   * Conversely, every processing-time call of a converted instance is the
   * call for one eligible machine of one operation of one job, and that
   * operation belongs to that job.
   */
  lemma ConvertedCallsListed(data: ParsedData, i: nat)
    requires ConvertToModel(data).Ok? && i < |ConvertToModel(data).value.processing|
    ensures var c := ConvertToModel(data).value;
            exists j, o, k :: 0 <= j < |data.jobs| && 0 <= o < |data.jobs[j]| && 0 <= k < |data.jobs[j][o]|
              && IsCall(c.processing[i], data.jobs[j][o][k], Start(Counts(data.jobs), j) + o)
              && c.operationJobs[c.processing[i].operation] == j
  {
    var c := ConvertToModel(data).value;
    var numMachines := Count(data.numMachines);
    assert JobCalls(data.jobs, 0, numMachines) == Ok(c.processing);
    var j, o, k := JobCallOrigin(data.jobs, 0, numMachines, c.processing, i);
    OperationJobsAt(data.jobs, j, Start(Counts(data.jobs), j) + o);
  }

  /** Machine numbers in the data are 1-based: machine `k` in `1 .. n` is the builder's machine `k - 1`. */
  lemma MachinesOneBased(op: seq<OperationData>, operation: nat, numMachines: nat, k: nat)
    requires forall i :: 0 <= i < |op| ==> 1 <= op[i].machine <= numMachines
    requires k < |op|
    ensures MachineCalls(op, operation, numMachines).Ok?
    ensures MachineCalls(op, operation, numMachines).value[k].machine == op[k].machine - 1
  {
  }

  /** Machine number 0 is not rejected: it selects the last machine. */
  lemma MachineZeroIsLast(operation: nat, numMachines: nat, time: int)
    requires numMachines > 0
    ensures MachineCalls([OperationData(0, time)], operation, numMachines)
            == Ok([ProcessingCall(numMachines - 1, operation, time)])
  {
    var op := [OperationData(0, time)];
    assert PyIndex(op[0].machine - 1, numMachines) == Some(numMachines - 1);
    var r := MachineCalls(op, operation, numMachines);
    assert r.Ok?;
    assert r.value[0] == ProcessingCall(numMachines - 1, operation, time);
    assert r.value == [ProcessingCall(numMachines - 1, operation, time)];
  }

  /** In a converted FJSP instance every precedence links two consecutive operations of the same job. */
  lemma FjspPrecedencesSameJob(lines: seq<seq<int>>, k: nat)
    requires Fjsp(lines).Ok? && ConvertToModel(Fjsp(lines).value).Ok?
    requires k < |ConvertToModel(Fjsp(lines).value).value.precedences|
    ensures var c := ConvertToModel(Fjsp(lines).value).value;
            var (a, b) := c.precedences[k];
            b == a + 1 && c.operationJobs[a] == c.operationJobs[b]
  {
    var data := Fjsp(lines).value;
    var c := ConvertToModel(data).value;
    IntendedPrecedenceSameJob(data.jobs, data.precedence[k]);
    assert c.operationJobs == OperationJobs(data.jobs);
  }

  /** An intended precedence links an operation to the next one of the same job. */
  lemma IntendedPrecedenceSameJob(jobs: seq<seq<seq<OperationData>>>, p: (int, int))
    requires p in IntendedPrecedences(Counts(jobs), 0)
    ensures 0 <= p.0 && p.1 == p.0 + 1 && p.1 < |OperationJobs(jobs)|
    ensures OperationJobs(jobs)[p.0] == OperationJobs(jobs)[p.1]
  {
    var counts := Counts(jobs);
    var j := IntendedJob(counts, 0, p);
    StartBounds(counts, j);
    OperationJobsAt(jobs, j, p.0);
    OperationJobsAt(jobs, j, p.1);
  }

  lemma {:induction false} StartBounds(counts: seq<int>, j: nat)
    requires j < |counts| && forall i :: 0 <= i < |counts| ==> counts[i] >= 0
    ensures 0 <= Start(counts, j) && Start(counts, j) + counts[j] <= Start(counts, |counts|)
  {
    if j + 1 < |counts| {
      StartBounds(counts[..|counts| - 1], j);
      StartPrefix(counts, counts[..|counts| - 1], j);
      StartPrefix(counts, counts[..|counts| - 1], |counts| - 1);
    }
    StartMono(counts, j);
  }

  lemma {:induction false} StartMono(counts: seq<int>, j: nat)
    requires j <= |counts| && forall i :: 0 <= i < |counts| ==> counts[i] >= 0
    ensures 0 <= Start(counts, j)
  {
    if j > 0 {
      StartMono(counts, j - 1);
    }
  }

  /** Operation `Start(j) + i` belongs to job `j`. */
  lemma {:induction false} OperationJobsAt(jobs: seq<seq<seq<OperationData>>>, j: nat, o: int)
    requires j < |jobs| && Start(Counts(jobs), j) <= o < Start(Counts(jobs), j) + |jobs[j]|
    ensures 0 <= o < |OperationJobs(jobs)| && OperationJobs(jobs)[o] == j
  {
    var init := jobs[..|jobs| - 1];
    assert Counts(jobs)[..|init|] == Counts(init);
    StartPrefix(Counts(jobs), Counts(init), |init|);
    StartMono(Counts(jobs), j);
    if j < |jobs| - 1 {
      StartPrefix(Counts(jobs), Counts(init), j);
      assert init[j] == jobs[j];
      OperationJobsAt(init, j, o);
      StartBounds(Counts(init), j);
    }
  }
}
