/**
 * The pieces of Go's `strings` and `fmt` packages that the monitor relies on, over byte strings
 * (Go's `string` and `[]byte` are both sequences of bytes), and a decimal parse used to state
 * that the `%d` rendering can be read back.
 */
module Strings {

  predicate IsDigit(c: char) {
    '0' <= c <= '9'
  }

  /** Characters that Go's `%d` verb can produce. */
  predicate IsDecimalChar(c: char) {
    IsDigit(c) || c == '-'
  }

  /** `strings.Index(s, string(c))`: the first position holding `c`, or -1 when there is none. */
  function IndexOf(s: string, c: char): (r: int)
    ensures -1 <= r < |s|
    ensures r == -1 <==> c !in s
    ensures 0 <= r ==> s[r] == c && c !in s[..r]
  {
    if s == [] then -1
    else if s[0] == c then 0
    else
      var k := IndexOf(s[1..], c);
      if k < 0 then -1
      else
        assert s[..k + 1] == [s[0]] + s[1..][..k];
        k + 1
  }

  /** When `d` holds only decimal characters and `c` is not one, the first `c` in `d + [c] + rest` ends `d`. */
  lemma IndexAfterDecimal(d: string, c: char, rest: string)
    requires forall i :: 0 <= i < |d| ==> IsDecimalChar(d[i])
    requires !IsDecimalChar(c)
    ensures IndexOf(d + [c] + rest, c) == |d|
  {
    var s := d + [c] + rest;
    var r := IndexOf(s, c);
    assert s[|d|] == c;
    assert forall i :: 0 <= i < |d| ==> s[i] == d[i];
    assert forall j :: |d| < j <= |s| ==> s[..j][|d|] == c;
  }

  function DigitChar(d: nat): (c: char)
    requires d < 10
    ensures IsDigit(c)
  {
    ('0' as int + d) as char
  }

  function DigitValue(c: char): int {
    c as int - '0' as int
  }

  /** Go's `%d` of a non-negative integer: its decimal digits, most significant first, without leading zeros. */
  function FormatNat(n: nat): (s: string)
    ensures |s| >= 1
    ensures forall i :: 0 <= i < |s| ==> IsDigit(s[i])
  {
    if n < 10 then [DigitChar(n)] else FormatNat(n / 10) + [DigitChar(n % 10)]
  }

  /** Go's `%d` (and `strconv.Itoa`) of an integer: a leading `-` for negative values. */
  function FormatInt(i: int): (s: string)
    ensures |s| >= 1
    ensures forall k :: 0 <= k < |s| ==> IsDecimalChar(s[k])
  {
    if i < 0 then "-" + FormatNat(-i) else FormatNat(i)
  }

  /** Reads decimal digits back into a number; the inverse of `FormatNat`. */
  function ParseNat(s: string): int {
    if s == [] then 0 else 10 * ParseNat(s[..|s| - 1]) + DigitValue(s[|s| - 1])
  }

  /** Reads an optionally negative decimal number; the inverse of `FormatInt`. */
  function ParseInt(s: string): int {
    if |s| > 0 && s[0] == '-' then -ParseNat(s[1..]) else ParseNat(s)
  }

  lemma {:induction false} FormatNatRoundTrip(n: nat)
    ensures ParseNat(FormatNat(n)) == n
  {
    if n >= 10 {
      var s := FormatNat(n);
      assert s[..|s| - 1] == FormatNat(n / 10);
      FormatNatRoundTrip(n / 10);
    }
  }

  /** `%d` loses nothing: the printed text determines the integer. */
  lemma FormatIntRoundTrip(i: int)
    ensures ParseInt(FormatInt(i)) == i
  {
    if i < 0 {
      assert FormatInt(i)[1..] == FormatNat(-i);
      FormatNatRoundTrip(-i);
    } else {
      FormatNatRoundTrip(i);
    }
  }

  /** Distinct integers print differently. */
  lemma FormatIntInjective(i: int, j: int)
    ensures FormatInt(i) == FormatInt(j) <==> i == j
  {
    FormatIntRoundTrip(i);
    FormatIntRoundTrip(j);
  }

  /** The parts with `sep` between neighbours and nowhere else. */
  function Join(parts: seq<string>, sep: string): string {
    if |parts| == 0 then []
    else if |parts| == 1 then parts[0]
    else parts[0] + sep + Join(parts[1..], sep)
  }

  /** Appending one part to a non-empty list adds one separator and the part at the end. */
  lemma {:induction false} JoinSnoc(parts: seq<string>, p: string, sep: string)
    requires parts != []
    ensures Join(parts + [p], sep) == Join(parts, sep) + sep + p
  {
    if |parts| > 1 {
      assert (parts + [p])[1..] == parts[1..] + [p];
      JoinSnoc(parts[1..], p, sep);
    } else {
      assert (parts + [p])[1..] == [p];
    }
  }

  /** Every part followed by `sep`, as a loop appending `part + sep` builds it. */
  function Terminated(parts: seq<string>, sep: string): string {
    if parts == [] then [] else Terminated(parts[..|parts| - 1], sep) + parts[|parts| - 1] + sep
  }

  /** A list of terminated parts is the joined list with one dangling separator. */
  lemma {:induction false} TerminatedIsJoinPlusSep(parts: seq<string>, sep: string)
    requires parts != []
    ensures Terminated(parts, sep) == Join(parts, sep) + sep
  {
    var n := |parts|;
    if n > 1 {
      var init := parts[..n - 1];
      TerminatedIsJoinPlusSep(init, sep);
      assert parts == init + [parts[n - 1]];
      JoinSnoc(init, parts[n - 1], sep);
    }
  }

  /** Appending one more terminated part, behind a fixed text. */
  lemma TerminatedSnoc(head: string, parts: seq<string>, p: string, sep: string)
    ensures head + Terminated(parts + [p], sep) == head + Terminated(parts, sep) + p + sep
  {
    assert (parts + [p])[..|parts|] == parts;
  }
}
