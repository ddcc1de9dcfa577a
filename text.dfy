/**
 * String helpers the pages rely on: line splitting and joining (the bind
 * message is a block of lines), JavaScript's rendering of integers, ASCII
 * lower-casing and prefix/suffix tests.
 */
module Text {
  import opened Wrappers

  predicate NoNewline(s: string) { '\n' !in s }

  predicate StartsWith(s: string, prefix: string) {
    |prefix| <= |s| && s[..|prefix|] == prefix
  }

  /** `s.endsWith(suffix)` */
  predicate EndsWith(s: string, suffix: string) {
    |suffix| <= |s| && s[|s| - |suffix|..] == suffix
  }

  lemma PrefixStarts(a: string, b: string)
    ensures StartsWith(a + b, a)
  {
    assert (a + b)[..|a|] == a;
  }

  lemma SuffixEnds(a: string, b: string)
    ensures EndsWith(a + b, b)
  {
    assert (a + b)[|a|..] == b;
  }

  lemma CancelPrefix(p: string, a: string, b: string)
    requires p + a == p + b
    ensures a == b
  {
    assert a == (p + a)[|p|..];
    assert b == (p + b)[|p|..];
  }

  /** Position of the first `c` in `s`, if any. */
  function IndexOf(s: string, c: char): (r: Option<nat>)
    ensures r.None? <==> c !in s
    ensures r.Some? ==> r.value < |s| && s[r.value] == c && c !in s[..r.value]
  {
    if |s| == 0 then None
    else if s[0] == c then Some(0)
    else match IndexOf(s[1..], c)
      case None =>
        assert s == [s[0]] + s[1..];
        None
      case Some(i) =>
        assert s[..i + 1] == [s[0]] + s[1..][..i];
        Some(i + 1)
  }

  lemma {:induction false} IndexOfFirst(s: string, c: char, i: nat)
    requires i < |s| && s[i] == c && c !in s[..i]
    ensures IndexOf(s, c) == Some(i)
    decreases i
  {
    if i > 0 {
      assert s[0] in s[..i];
      assert s[1..][..i - 1] == s[1..i];
      assert forall x :: x in s[1..i] ==> x in s[..i];
      IndexOfFirst(s[1..], c, i - 1);
    }
  }

  /** `s.split("\n")`: the pieces between newlines, at least one. */
  function SplitLines(s: string): (lines: seq<string>)
    ensures |lines| >= 1
    ensures forall k :: 0 <= k < |lines| ==> NoNewline(lines[k])
    decreases |s|
  {
    match IndexOf(s, '\n')
    case None => [s]
    case Some(i) => [s[..i]] + SplitLines(s[i + 1..])
  }

  /** `lines.join("\n")` */
  function JoinLines(lines: seq<string>): string
    requires |lines| >= 1
    decreases |lines|
  {
    if |lines| == 1 then lines[0] else lines[0] + "\n" + JoinLines(lines[1..])
  }

  /** Splitting a joined block of newline-free lines gives the lines back. */
  lemma {:induction false} SplitJoin(lines: seq<string>)
    requires |lines| >= 1
    requires forall k :: 0 <= k < |lines| ==> NoNewline(lines[k])
    ensures SplitLines(JoinLines(lines)) == lines
    decreases |lines|
  {
    if |lines| == 1 {
      assert NoNewline(lines[0]);
    } else {
      var head, rest := lines[0], JoinLines(lines[1..]);
      var s := head + "\n" + rest;
      assert NoNewline(head);
      assert s[..|head|] == head;
      IndexOfFirst(s, '\n', |head|);
      assert s[|head| + 1..] == rest;
      SplitJoin(lines[1..]);
      assert lines == [lines[0]] + lines[1..];
    }
  }

  /** Appending a line to a block appends a newline and that line. */
  lemma {:induction false} JoinLast(lines: seq<string>, last: string)
    requires |lines| >= 1
    ensures JoinLines(lines + [last]) == JoinLines(lines) + "\n" + last
    decreases |lines|
  {
    var all := lines + [last];
    assert all[1..] == lines[1..] + [last];
    if |lines| > 1 {
      JoinLast(lines[1..], last);
    }
  }

  /** Joining the pieces of a split gives the text back. */
  lemma {:induction false} JoinSplit(s: string)
    ensures JoinLines(SplitLines(s)) == s
    decreases |s|
  {
    match IndexOf(s, '\n')
    case None =>
    case Some(i) =>
      JoinSplit(s[i + 1..]);
      var lines := SplitLines(s);
      assert lines[0] == s[..i] && lines[1..] == SplitLines(s[i + 1..]);
      assert s == s[..i] + "\n" + s[i + 1..];
  }

  // ----- decimal numbers -----

  predicate IsDigit(c: char) { '0' <= c <= '9' }

  predicate AllDigits(s: string) { forall k :: 0 <= k < |s| ==> IsDigit(s[k]) }

  function DigitChar(d: nat): (c: char)
    requires d < 10
    ensures IsDigit(c)
  {
    ('0' as int + d) as char
  }

  function DigitValue(c: char): (d: nat)
    requires IsDigit(c)
    ensures d < 10 && DigitChar(d) == c
  {
    c as int - '0' as int
  }

  /** Decimal digits of `n`, most significant first, without leading zeros. */
  function NatToDecimal(n: nat): (s: string)
    ensures 1 <= |s| && AllDigits(s)
    ensures |s| > 1 ==> s[0] != '0'
    decreases n
  {
    if n < 10 then [DigitChar(n)]
    else
      var front := NatToDecimal(n / 10);
      assert n / 10 > 0;
      front + [DigitChar(n % 10)]
  }

  /** The number a non-empty run of digits denotes. */
  function DecimalValue(s: string): nat
    requires 1 <= |s| && AllDigits(s)
    decreases |s|
  {
    if |s| == 1 then DigitValue(s[0])
    else 10 * DecimalValue(s[..|s| - 1]) + DigitValue(s[|s| - 1])
  }

  lemma {:induction false} DecimalRoundTrip(n: nat)
    ensures DecimalValue(NatToDecimal(n)) == n
    decreases n
  {
    if n >= 10 {
      var s := NatToDecimal(n);
      assert s[..|s| - 1] == NatToDecimal(n / 10);
      DecimalRoundTrip(n / 10);
      assert DigitValue(DigitChar(n % 10)) == n % 10;
    }
  }

  /** `${n}` for an integral JavaScript number. */
  function IntToDecimal(n: int): string {
    if n < 0 then "-" + NatToDecimal(-n) else NatToDecimal(n)
  }

  /** An optional minus sign followed by digits. */
  function ParseInt(s: string): Option<int> {
    if 2 <= |s| && s[0] == '-' && AllDigits(s[1..]) then Some(0 - DecimalValue(s[1..]) as int)
    else if 1 <= |s| && AllDigits(s) then Some(DecimalValue(s))
    else None
  }

  lemma AllDigitsNoNewline(s: string)
    requires AllDigits(s)
    ensures NoNewline(s)
  {
    assert forall k :: 0 <= k < |s| ==> s[k] != '\n' by {
      forall k | 0 <= k < |s| ensures s[k] != '\n' { assert IsDigit(s[k]); }
    }
  }

  lemma NegativeDecimal(n: nat)
    requires n > 0
    ensures ParseInt("-" + NatToDecimal(n)) == Some(0 - n)
    ensures NoNewline("-" + NatToDecimal(n))
  {
    var digits := NatToDecimal(n);
    var s := "-" + digits;
    assert s[1..] == digits;
    DecimalRoundTrip(n);
    AllDigitsNoNewline(digits);
    assert forall x :: x in s ==> x == '-' || x in digits;
  }

  lemma NonNegativeDecimal(n: nat)
    ensures ParseInt(NatToDecimal(n)) == Some(n)
    ensures NoNewline(NatToDecimal(n))
  {
    var s := NatToDecimal(n);
    assert IsDigit(s[0]);
    DecimalRoundTrip(n);
    AllDigitsNoNewline(s);
  }

  /** JavaScript's rendering of an integer reads back as that integer, on one line, and is never "null". */
  lemma IntToDecimalRoundTrip(n: int)
    ensures ParseInt(IntToDecimal(n)) == Some(n)
    ensures NoNewline(IntToDecimal(n)) && IntToDecimal(n) != "null"
  {
    var s := IntToDecimal(n);
    var digits := NatToDecimal(if n < 0 then -n else n);
    if n < 0 {
      NegativeDecimal(-n);
    } else {
      NonNegativeDecimal(n);
    }
    assert s[|s| - 1] == digits[|digits| - 1];
    assert IsDigit(s[|s| - 1]);
    assert !IsDigit("null"[3]);
  }

  // ----- case -----

  /** ASCII part of `String.prototype.toLowerCase`. */
  function LowerChar(c: char): char {
    if 'A' <= c <= 'Z' then (c as int + 32) as char else c
  }

  function Lower(s: string): (r: string)
    ensures |r| == |s|
    ensures forall k :: 0 <= k < |s| ==> r[k] == LowerChar(s[k])
  {
    seq(|s|, k requires 0 <= k < |s| => LowerChar(s[k]))
  }
}
