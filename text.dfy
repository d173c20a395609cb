/**
 * The Python text operations the instance parsers use once a file has been
 * read into lines: `str.strip()`, `str.split()` on runs of whitespace (and
 * `re.split(r"\s+", ...)` on a stripped line, which agrees with it), the
 * stripping and dropping of blank lines, `int` on each token, and list
 * slicing with Python's clamping and negative indices.
 */
module Text {
  import opened Wrappers
  import opened Decimal

  /**
   * The characters `str.split()` and `str.strip()` treat as blanks (those
   * for which `str.isspace()` holds): the ASCII blanks `\t` to `\r` and the
   * space, the separators `\x1c` to `\x1f`, and the Unicode spaces and line
   * and paragraph separators.
   */
  predicate IsSpace(c: char)
  {
    || c == ' ' || '\t' <= c <= '\r' || '\U{001C}' <= c <= '\U{001F}'
    || c == '\U{0085}' || c == '\U{00A0}' || c == '\U{1680}' || '\U{2000}' <= c <= '\U{200A}'
    || c == '\U{2028}' || c == '\U{2029}' || c == '\U{202F}' || c == '\U{205F}' || c == '\U{3000}'
  }

  predicate NoSpace(s: string)
  {
    forall i :: 0 <= i < |s| ==> !IsSpace(s[i])
  }

  /** `s.rstrip()`: a prefix of `s` that is empty or ends with a non-blank. */
  function TrimEnd(s: string): (r: string)
    ensures |r| <= |s| && r == s[..|r|]
    ensures r == [] || !IsSpace(r[|r| - 1])
  {
    if s == [] || !IsSpace(s[|s| - 1]) then s else TrimEnd(s[..|s| - 1])
  }

  /** `s.lstrip()`: a suffix of `s` that is empty or starts with a non-blank. */
  function TrimStart(s: string): (r: string)
    ensures |r| <= |s| && r == s[|s| - |r|..]
    ensures r == [] || !IsSpace(r[0])
  {
    if s == [] || !IsSpace(s[0]) then s else TrimStart(s[1..])
  }

  /** `s.strip()`: without leading and trailing whitespace. */
  function Strip(s: string): (r: string)
  {
    TrimStart(TrimEnd(s))
  }

  /** A stripped string is empty or starts and ends with a non-blank. */
  lemma StripEnds(s: string)
    ensures var r := Strip(s); r == [] || (!IsSpace(r[0]) && !IsSpace(r[|r| - 1]))
  {
    var e := TrimEnd(s);
    var r := TrimStart(e);
    if r != [] {
      assert r[|r| - 1] == e[|e| - 1];
    }
  }

  /** A string that starts and ends with a non-blank is its own strip. */
  lemma StripTrimmed(s: string)
    requires s == [] || (!IsSpace(s[0]) && !IsSpace(s[|s| - 1]))
    ensures Strip(s) == s
  {
  }

  /** `s.split()`: the maximal runs of non-blank characters, in order. */
  function Words(s: string): (r: seq<string>)
    ensures forall i :: 0 <= i < |r| ==> r[i] != [] && NoSpace(r[i])
    ensures s != [] && !IsSpace(s[|s| - 1]) ==> r != []
  {
    if s == [] then []
    else
      var init, c := s[..|s| - 1], s[|s| - 1];
      var w := Words(init);
      if IsSpace(c) then w
      else if init == [] || IsSpace(init[|init| - 1]) then w + [[c]]
      else w[..|w| - 1] + [w[|w| - 1] + [c]]
  }

  /** A blank-free word splits into itself. */
  lemma {:induction false} WordsOfWord(t: string)
    requires t != [] && NoSpace(t)
    ensures Words(t) == [t]
  {
    var init := t[..|t| - 1];
    if init != [] {
      assert NoSpace(init) && !IsSpace(init[|init| - 1]) by {
        assert forall i :: 0 <= i < |init| ==> init[i] == t[i];
      }
      WordsOfWord(init);
      assert init + [t[|t| - 1]] == t;
    } else {
      assert t == [t[0]];
    }
  }

  /** Appending a blank and a word to a string appends that word to its words. */
  lemma {:induction false} WordsAppend(p: string, t: string)
    requires t != [] && NoSpace(t)
    ensures Words(p + [' '] + t) == Words(p) + [t]
  {
    var init := t[..|t| - 1];
    var s := p + [' '] + t;
    if init == [] {
      assert t == [t[0]];
      assert s[..|s| - 1] == p + [' '];
      assert (p + [' '])[..|p + [' ']| - 1] == p;
    } else {
      assert NoSpace(init) && !IsSpace(init[|init| - 1]) by {
        assert forall i :: 0 <= i < |init| ==> init[i] == t[i];
      }
      WordsAppend(p, init);
      var q := p + [' '] + init;
      assert s[..|s| - 1] == q;
      assert q[|q| - 1] == init[|init| - 1];
      assert init + [t[|t| - 1]] == t;
    }
  }

  /** `" ".join(ts)`. */
  function Join(ts: seq<string>): string
  {
    if ts == [] then [] else if |ts| == 1 then ts[0] else Join(ts[..|ts| - 1]) + [' '] + ts[|ts| - 1]
  }

  /** Joined words split back into the words. */
  lemma {:induction false} WordsJoin(ts: seq<string>)
    requires forall i :: 0 <= i < |ts| ==> ts[i] != [] && NoSpace(ts[i])
    ensures Words(Join(ts)) == ts
  {
    if |ts| == 1 {
      WordsOfWord(ts[0]);
    } else if |ts| > 1 {
      var init, last := ts[..|ts| - 1], ts[|ts| - 1];
      assert forall i :: 0 <= i < |init| ==> init[i] == ts[i];
      calc {
        Words(Join(ts));
        { assert Join(ts) == Join(init) + [' '] + last; }
        Words(Join(init) + [' '] + last);
        { WordsAppend(Join(init), last); }
        Words(Join(init)) + [last];
        { WordsJoin(init); }
        init + [last];
        { assert init + [last] == ts; }
        ts;
      }
    }
  }

  /** A join of words starts and ends with a non-blank. */
  lemma {:induction false} JoinEnds(ts: seq<string>)
    requires forall i :: 0 <= i < |ts| ==> ts[i] != [] && NoSpace(ts[i])
    ensures var s := Join(ts); ts != [] ==> s != [] && !IsSpace(s[0]) && !IsSpace(s[|s| - 1])
  {
    if |ts| > 1 {
      JoinEnds(ts[..|ts| - 1]);
    }
  }

  /** `[line.strip() for line in lines if line.strip()]`. */
  function StrippedLines(lines: seq<string>): (r: seq<string>)
    ensures forall i :: 0 <= i < |r| ==> r[i] != []
  {
    if lines == [] then []
    else
      var s := Strip(lines[|lines| - 1]);
      StrippedLines(lines[..|lines| - 1]) + (if s == [] then [] else [s])
  }

  /** Lines that are already stripped and not blank pass through unchanged. */
  lemma {:induction false} StrippedLinesId(lines: seq<string>)
    requires forall i :: 0 <= i < |lines| ==> lines[i] != [] && !IsSpace(lines[i][0]) && !IsSpace(lines[i][|lines[i]| - 1])
    ensures StrippedLines(lines) == lines
  {
    if lines != [] {
      StrippedLinesId(lines[..|lines| - 1]);
      StripTrimmed(lines[|lines| - 1]);
    }
  }

  /** The exceptions the parsers raise. */
  datatype ParseError =
    | StopIteration               // `next` on an exhausted iterator
    | ValueError                  // `int` on a token that is no integer literal, or unpacking the wrong number of values
    | IndexError                  // list indexing out of range
    | AssertionError              // a failed `assert`
    | KeyError(key: string)       // a missing dictionary key
    | PatternNotFound(pattern: string)  // `_find`'s `ValueError`

  /** `list(map(int, tokens))`: fails exactly when some token is no integer literal. */
  function ParseInts(tokens: seq<string>): (r: Result<seq<int>, ParseError>)
    ensures r.Ok? ==> |r.value| == |tokens| && forall i :: 0 <= i < |tokens| ==> ParseInt(tokens[i]) == Some(r.value[i])
    ensures r.Err? ==> r.error == ValueError && exists i :: 0 <= i < |tokens| && ParseInt(tokens[i]).None?
  {
    if tokens == [] then Ok([])
    else
      match ParseInts(tokens[..|tokens| - 1])
      case Err(e) => Err(e)
      case Ok(init) =>
        match ParseInt(tokens[|tokens| - 1])
        case None => Err(ValueError)
        case Some(v) => Ok(init + [v])
  }

  /** Every token parses exactly when the list does. */
  lemma {:induction false} ParseIntsOk(tokens: seq<string>)
    requires forall i :: 0 <= i < |tokens| ==> ParseInt(tokens[i]).Some?
    ensures ParseInts(tokens).Ok?
  {
    if tokens != [] {
      ParseIntsOk(tokens[..|tokens| - 1]);
    }
  }

  /** The decimal renderings of naturals parse back into them. */
  lemma ParseRendered(vs: seq<nat>)
    ensures ParseInts(Rendered(vs)) == Ok(vs)
  {
    var ts := Rendered(vs);
    forall i | 0 <= i < |ts|
      ensures ParseInt(ts[i]) == Some(vs[i] as int)
    {
      ParseNatToString(vs[i]);
    }
    ParseIntsOk(ts);
    assert ParseInts(ts).value == vs;
  }

  /** `str(v)` for each value. */
  function Rendered(vs: seq<nat>): (r: seq<string>)
    ensures |r| == |vs| && forall i :: 0 <= i < |r| ==> r[i] != [] && NoSpace(r[i])
  {
    var r := seq(|vs|, i requires 0 <= i < |vs| => NatToString(vs[i]));
    assert forall i :: 0 <= i < |r| ==> NoSpace(r[i]) by {
      forall i, j | 0 <= i < |r| && 0 <= j < |r[i]|
        ensures !IsSpace(r[i][j])
      {
        assert IsDigit(r[i][j]);
      }
    }
    r
  }

  lemma RenderedAppend(a: seq<nat>, b: seq<nat>)
    ensures Rendered(a + b) == Rendered(a) + Rendered(b)
  {
  }

  /** `list(range(n))`: empty when `n` is not positive. */
  function PyRange(n: int): (r: seq<int>)
    ensures |r| == if n <= 0 then 0 else n
    ensures forall i :: 0 <= i < |r| ==> r[i] == i
  {
    if n <= 0 then [] else seq(n, i requires 0 <= i < n => i)
  }

  /** The number of iterations of `for _ in range(n)`. */
  function Count(n: int): nat
  {
    if n <= 0 then 0 else n
  }

  /** A Python slice bound: negative counts from the end, then clamped to `[0, n]`. */
  function SliceBound(i: int, n: nat): (r: nat)
    ensures r <= n
  {
    if i < 0 then (if n + i < 0 then 0 else n + i) else if i > n then n else i
  }

  /** `s[i:j]`. */
  function PySlice<T>(s: seq<T>, i: int, j: int): (r: seq<T>)
    ensures 0 <= i <= j <= |s| ==> r == s[i..j]
  {
    var a, b := SliceBound(i, |s|), SliceBound(j, |s|);
    if a <= b then s[a..b] else []
  }
}
