/**
 * Decimal rendering and parsing of integers, as the CP Optimizer back end
 * uses them to name its variables (`f"M{idx}_{task}"`) and to read the
 * indices back (`int(...)`), and Python's `str.split` on one separator.
 */
module Decimal {
  import opened Wrappers

  predicate IsDigit(c: char)
  {
    '0' <= c <= '9'
  }

  predicate AllDigits(s: string)
  {
    forall i :: 0 <= i < |s| ==> IsDigit(s[i])
  }

  function DigitChar(d: nat): (c: char)
    requires d < 10
    ensures IsDigit(c)
  {
    (('0' as int) + d) as char
  }

  function DigitValue(c: char): (d: nat)
    requires IsDigit(c)
    ensures d < 10
  {
    (c as int) - ('0' as int)
  }

  /** `str(n)` for a natural number: its decimal digits without leading zeros. */
  function NatToString(n: nat): (s: string)
    ensures s != [] && AllDigits(s)
    ensures |s| > 1 ==> s[0] != '0'
  {
    if n < 10 then [DigitChar(n)] else NatToString(n / 10) + [DigitChar(n % 10)]
  }

  /** The number a string of decimal digits denotes. */
  function DigitsValue(s: string): nat
    requires AllDigits(s)
  {
    if s == [] then 0 else 10 * DigitsValue(s[..|s| - 1]) + DigitValue(s[|s| - 1])
  }

  /**
   * `int(s)` on a string of one optional sign and at least one digit;
   * anything else is a `ValueError`, here `None`.
   */
  function ParseInt(s: string): (r: Option<int>)
    ensures r.Some? <==> (s != [] && (if s[0] == '-' || s[0] == '+' then |s| > 1 && AllDigits(s[1..]) else AllDigits(s)))
  {
    if s == [] then None
    else if s[0] == '-' || s[0] == '+' then
      if |s| > 1 && AllDigits(s[1..]) then
        var v: int := DigitsValue(s[1..]);
        Some(if s[0] == '-' then -v else v)
      else None
    else if AllDigits(s) then Some(DigitsValue(s))
    else None
  }

  /** Reading back a rendered number gives the number. */
  lemma {:induction false} DigitsOfNat(n: nat)
    ensures DigitsValue(NatToString(n)) == n
  {
    if n >= 10 {
      DigitsOfNat(n / 10);
      var s := NatToString(n);
      assert s[..|s| - 1] == NatToString(n / 10);
    }
  }

  lemma {:induction false} ParseNatToString(n: nat)
    ensures ParseInt(NatToString(n)) == Some(n)
  {
    DigitsOfNat(n);
  }

  /** `s.split(sep)`: the pieces between the occurrences of `sep`, at least one. */
  function Split(s: string, sep: char): (r: seq<string>)
    ensures |r| >= 1
    ensures forall i, j :: 0 <= i < |r| && 0 <= j < |r[i]| ==> r[i][j] != sep
  {
    if s == [] then [""]
    else
      var init := Split(s[..|s| - 1], sep);
      if s[|s| - 1] == sep then init + [""]
      else init[..|init| - 1] + [init[|init| - 1] + [s[|s| - 1]]]
  }

  /** Pieces joined by `sep` split back into the pieces. */
  lemma {:induction false} SplitJoined(a: string, b: string, sep: char)
    requires sep !in a && sep !in b
    ensures Split(a + [sep] + b, sep) == [a, b]
  {
    SplitNoSep(a, sep);
    SplitAppend(a + [sep], b, sep);
    assert (a + [sep])[..|a + [sep]| - 1] == a;
  }

  /** A string without `sep` is a single piece. */
  lemma {:induction false} SplitNoSep(s: string, sep: char)
    requires sep !in s
    ensures Split(s, sep) == [s]
  {
    if s != [] {
      SplitNoSep(s[..|s| - 1], sep);
      assert s[..|s| - 1] + [s[|s| - 1]] == s;
    }
  }

  /** Appending a piece without `sep` to a string ending in `sep` adds that piece. */
  lemma {:induction false} SplitAppend(p: string, b: string, sep: char)
    requires p != [] && p[|p| - 1] == sep && sep !in b
    ensures Split(p + b, sep) == Split(p[..|p| - 1], sep) + [b]
  {
    if b == [] {
      assert p + b == p;
    } else {
      var q := b[..|b| - 1];
      SplitAppend(p, q, sep);
      assert (p + b)[..|p + b| - 1] == p + q;
      assert q + [b[|b| - 1]] == b;
      var init := Split(p + q, sep);
      assert init[|init| - 1] == q;
    }
  }
}
