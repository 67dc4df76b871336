/**
 * The string helpers of Go's standard library that the client relies on:
 * `strings.TrimRight`, `strings.TrimLeft`, `strings.TrimSpace`, `strings.Join`
 * and `strconv.Itoa`. Strings are sequences of characters.
 */
module Text {

  /** The white space `strings.TrimSpace` removes, restricted to ASCII:
      tab, line feed, vertical tab, form feed, carriage return and space. */
  const AsciiSpace: set<char> := {'\t', '\n', '\U{000B}', '\U{000C}', '\r', ' '}

  /** `strings.TrimRight(s, cutset)`: drops the longest suffix made only of
      characters in `cutset` (Go passes the set as a string). */
  function TrimRight(s: string, cutset: set<char>): (r: string)
    ensures |r| <= |s| && r == s[..|r|]
    ensures forall i :: |r| <= i < |s| ==> s[i] in cutset
    ensures r == [] || r[|r| - 1] !in cutset
    decreases |s|
  {
    if s != [] && s[|s| - 1] in cutset then TrimRight(s[..|s| - 1], cutset) else s
  }

  /** `strings.TrimLeft(s, cutset)`: drops the longest prefix made only of
      characters in `cutset` (Go passes the set as a string). */
  function TrimLeft(s: string, cutset: set<char>): (r: string)
    ensures |r| <= |s| && r == s[|s| - |r|..]
    ensures forall i :: 0 <= i < |s| - |r| ==> s[i] in cutset
    ensures r == [] || r[0] !in cutset
    decreases |s|
  {
    if s != [] && s[0] in cutset then TrimLeft(s[1..], cutset) else s
  }

  /** A string that does not end in a character of the set is left as it is. */
  lemma TrimRightKeeps(s: string, cutset: set<char>)
    requires s != [] && s[|s| - 1] !in cutset
    ensures TrimRight(s, cutset) == s
  {
  }

  /** Trimming twice removes nothing more than trimming once. */
  lemma TrimRightIdempotent(s: string, cutset: set<char>)
    ensures TrimRight(TrimRight(s, cutset), cutset) == TrimRight(s, cutset)
  {
  }

  /** A string is blank when every character is ASCII white space. */
  predicate IsBlank(s: string)
  {
    forall i :: 0 <= i < |s| ==> s[i] in AsciiSpace
  }

  /** `strings.TrimSpace` on ASCII white space: both ends trimmed. The result
      is the slice of `s` that starts after its `k` leading white-space
      characters, with only white space after it; it neither starts nor ends
      with white space. */
  function TrimSpace(s: string): (r: string)
    ensures r == [] || (r[0] !in AsciiSpace && r[|r| - 1] !in AsciiSpace)
    ensures var k := |s| - |TrimLeft(s, AsciiSpace)|;
      && k + |r| <= |s| && r == s[k..k + |r|]
      && (forall i :: 0 <= i < k ==> s[i] in AsciiSpace)
      && (forall i :: k + |r| <= i < |s| ==> s[i] in AsciiSpace)
  {
    var l := TrimLeft(s, AsciiSpace);
    var r := TrimRight(l, AsciiSpace);
    SliceOfSuffix(s, l, r);
    r
  }

  /** A prefix `r` of a suffix `l` of `s`, followed in `l` by white space only,
      is the slice of `s` after the first `|s| - |l|` characters, and only
      white space follows it in `s`. */
  lemma SliceOfSuffix(s: string, l: string, r: string)
    requires |l| <= |s| && l == s[|s| - |l|..]
    requires |r| <= |l| && r == l[..|r|]
    requires forall i :: |r| <= i < |l| ==> l[i] in AsciiSpace
    ensures var k := |s| - |l|;
      && k + |r| <= |s| && r == s[k..k + |r|]
      && forall i :: k + |r| <= i < |s| ==> s[i] in AsciiSpace
  {
    var k := |s| - |l|;
    forall i | k + |r| <= i < |s|
      ensures s[i] in AsciiSpace
    {
      assert s[i] == l[i - k];
    }
  }

  /** What survives `TrimSpace` is empty exactly when the input is blank. */
  lemma TrimSpaceEmptyIffBlank(s: string)
    ensures TrimSpace(s) == [] <==> IsBlank(s)
  {
    var l := TrimLeft(s, AsciiSpace);
    var r := TrimRight(l, AsciiSpace);
    if TrimSpace(s) == [] {
      forall i | 0 <= i < |s| ensures s[i] in AsciiSpace {
        if i >= |s| - |l| {
          assert s[i] == l[i - (|s| - |l|)];
        }
      }
    } else {
      assert r[0] == l[0] == s[|s| - |l|];
    }
  }

  /** `strings.Join(elems, sep)`: the elements with `sep` between neighbours. */
  function Join(elems: seq<string>, sep: string): (r: string)
    ensures elems == [] ==> r == []
    ensures |elems| == 1 ==> r == elems[0]
    ensures elems != [] ==> |r| == TotalLength(elems) + (|elems| - 1) * |sep|
  {
    if elems == [] then ""
    else if |elems| == 1 then elems[0]
    else Join(elems[..|elems| - 1], sep) + sep + elems[|elems| - 1]
  }

  /** The number of characters in all of `elems`. */
  function TotalLength(elems: seq<string>): nat
  {
    if elems == [] then 0 else TotalLength(elems[..|elems| - 1]) + |elems[|elems| - 1]|
  }

  /** Joining two non-empty batches one after the other is the same as joining
      each and putting one separator between them: order is kept and nothing
      is merged or dropped. */
  lemma {:induction false} JoinAppend(a: seq<string>, b: seq<string>, sep: string)
    requires a != [] && b != []
    ensures Join(a + b, sep) == Join(a, sep) + sep + Join(b, sep)
    decreases |b|
  {
    if |b| == 1 {
      assert (a + b)[..|a + b| - 1] == a;
    } else {
      var b' := b[..|b| - 1];
      assert (a + b)[..|a + b| - 1] == a + b';
      JoinAppend(a, b', sep);
    }
  }

  /** The decimal digit character for `d`. */
  function DigitChar(d: nat): char
    requires d < 10
  {
    "0123456789"[d]
  }

  predicate IsDigit(c: char)
  {
    '0' <= c <= '9'
  }

  /** Decimal digits of `n`, most significant first, without leading zeros. */
  function NatToDecimal(n: nat): (r: string)
    ensures |r| > 0 && forall i :: 0 <= i < |r| ==> IsDigit(r[i])
    ensures |r| > 1 ==> r[0] != '0'
  {
    if n < 10 then [DigitChar(n)] else NatToDecimal(n / 10) + [DigitChar(n % 10)]
  }

  /** `strconv.Itoa`: a minus sign for negative numbers, then the digits of
      the magnitude. */
  function Itoa(n: int): (r: string)
    ensures |r| > 0 && (r[0] == '-' <==> n < 0)
    ensures forall i :: (if n < 0 then 1 else 0) <= i < |r| ==> IsDigit(r[i])
  {
    if n < 0 then "-" + NatToDecimal(-n) else NatToDecimal(n)
  }

  /** The value of a string of decimal digits: the reference that `NatToDecimal` is checked against. */
  function DecimalValue(s: string): nat
    requires forall i :: 0 <= i < |s| ==> IsDigit(s[i])
  {
    if s == [] then 0 else 10 * DecimalValue(s[..|s| - 1]) + DigitValue(s[|s| - 1])
  }

  function DigitValue(c: char): nat
    requires IsDigit(c)
  {
    c as int - '0' as int
  }

  lemma {:induction false} DecimalRoundTrip(n: nat)
    ensures DecimalValue(NatToDecimal(n)) == n
  {
    if n >= 10 {
      var s := NatToDecimal(n);
      assert s[..|s| - 1] == NatToDecimal(n / 10);
      DecimalRoundTrip(n / 10);
    }
  }

  /** Different numbers have different decimal forms. */
  lemma NatToDecimalInjective(a: nat, b: nat)
    requires NatToDecimal(a) == NatToDecimal(b)
    ensures a == b
  {
    DecimalRoundTrip(a);
    DecimalRoundTrip(b);
  }

  /** `Itoa` starts with a minus sign exactly for negative numbers. */
  lemma ItoaSign(n: int)
    ensures |Itoa(n)| > 0 && (Itoa(n)[0] == '-' <==> n < 0)
  {
    if n >= 0 {
      assert IsDigit(Itoa(n)[0]);
    }
  }

  /** Different integers give different `Itoa` strings, so the status code in
      an error message identifies the status. */
  lemma ItoaInjective(m: int, n: int)
    requires Itoa(m) == Itoa(n)
    ensures m == n
  {
    ItoaSign(m);
    ItoaSign(n);
    if m < 0 {
      assert NatToDecimal(-m) == Itoa(m)[1..];
      assert NatToDecimal(-n) == Itoa(n)[1..];
      NatToDecimalInjective(-m, -n);
    } else {
      NatToDecimalInjective(m, n);
    }
  }
}
