/**
 * The pieces of Go's standard library that the client's string building
 * relies on: `strings.Join` and the decimal rendering of `fmt`'s `%d` verb.
 * Each comes with an independent inverse (splitting, parsing) and the
 * round-trip lemma that ties the two together.
 */
module Strings {
  import opened Wrappers

  /** `strings.Join`: the parts in order with `sep` between neighbours. */
  function Join(parts: seq<string>, sep: string): (r: string)
    decreases |parts|
  {
    if |parts| == 0 then ""
    else if |parts| == 1 then parts[0]
    else parts[0] + sep + Join(parts[1..], sep)
  }

  /** Appending a part adds exactly one separator and the part at the end. */
  lemma {:induction false} JoinAppend(parts: seq<string>, p: string, sep: string)
    ensures Join(parts + [p], sep) == if parts == [] then p else Join(parts, sep) + sep + p
    decreases |parts|
  {
    if |parts| > 1 {
      assert (parts + [p])[1..] == parts[1..] + [p];
      JoinAppend(parts[1..], p, sep);
    } else if |parts| == 1 {
      assert (parts + [p])[1..] == [p];
    }
  }

  /** Splits `s` at its first occurrence of `c`: the text before it and, if `c` occurs, the text after it. */
  function SplitAtFirst(s: string, c: char): (r: (string, Option<string>))
    decreases |s|
  {
    if |s| == 0 then ("", None)
    else if s[0] == c then ("", Some(s[1..]))
    else
      var (before, after) := SplitAtFirst(s[1..], c);
      ([s[0]] + before, after)
  }

  /** Text without `c`, then `c`, then anything: the split is exactly there. */
  lemma {:induction false} SplitAtFirstAt(a: string, c: char, b: string)
    requires c !in a
    ensures SplitAtFirst(a + [c] + b, c) == (a, Some(b))
    decreases |a|
  {
    if |a| == 0 {
      assert a + [c] + b == [c] + b;
    } else {
      assert (a + [c] + b)[1..] == a[1..] + [c] + b;
      SplitAtFirstAt(a[1..], c, b);
      assert [a[0]] + a[1..] == a;
    }
  }

  /** Text without `c` has no split point. */
  lemma {:induction false} SplitAtFirstNone(a: string, c: char)
    requires c !in a
    ensures SplitAtFirst(a, c) == (a, None)
    decreases |a|
  {
    if |a| > 0 {
      SplitAtFirstNone(a[1..], c);
      assert [a[0]] + a[1..] == a;
    }
  }

  /** `strings.Split` with a one-character separator: the pieces between occurrences of `c`. */
  function Split(s: string, c: char): (r: seq<string>)
    ensures |r| >= 1
    decreases |s|
  {
    match SplitAtFirst(s, c)
    case (before, None) => [before]
    case (before, Some(after)) =>
      SplitAtFirstShorter(s, c);
      [before] + Split(after, c)
  }

  lemma {:induction false} SplitAtFirstShorter(s: string, c: char)
    ensures SplitAtFirst(s, c).1.Some? ==> |SplitAtFirst(s, c).1.value| < |s|
    decreases |s|
  {
    if |s| > 0 && s[0] != c {
      SplitAtFirstShorter(s[1..], c);
    }
  }

  /** No part contains the character `c`. */
  predicate Free(parts: seq<string>, c: char)
  {
    forall i :: 0 <= i < |parts| ==> c !in parts[i]
  }

  /**
   * Round trip: joining parts that do not contain `c` with `c` and splitting
   * the result at `c` gives back the parts (a non-empty list, because
   * splitting "" gives one empty part).
   */
  lemma {:induction false} SplitJoin(parts: seq<string>, c: char)
    requires |parts| > 0 && Free(parts, c)
    ensures Split(Join(parts, [c]), c) == parts
    decreases |parts|
  {
    if |parts| == 1 {
      SplitAtFirstNone(parts[0], c);
    } else {
      SplitJoin(parts[1..], c);
      SplitAtFirstAt(parts[0], c, Join(parts[1..], [c]));
      assert parts == [parts[0]] + parts[1..];
    }
  }

  /** A decimal digit. */
  predicate IsDigit(ch: char)
  {
    '0' <= ch <= '9'
  }

  predicate AllDigits(s: string)
  {
    forall i :: 0 <= i < |s| ==> IsDigit(s[i])
  }

  function DigitChar(d: nat): (ch: char)
    requires d < 10
  {
    ('0' as int + d) as char
  }

  function DigitValue(ch: char): (d: nat)
    requires IsDigit(ch)
  {
    ch as int - '0' as int
  }

  /** The decimal digits of `n`, most significant first, with no leading zero. */
  function NatDigits(n: nat): (r: string)
    ensures |r| >= 1 && AllDigits(r)
    ensures r[0] == '0' ==> n == 0
    decreases n
  {
    if n < 10 then [DigitChar(n)] else NatDigits(n / 10) + [DigitChar(n % 10)]
  }

  /** `fmt.Sprintf("%d", n)`: a minus sign for negative numbers, then the digits. */
  function Decimal(n: int): (r: string)
  {
    if n < 0 then "-" + NatDigits(-n) else NatDigits(n)
  }

  /** The number a string of digits denotes. */
  function DigitsValue(s: string): (n: nat)
    requires AllDigits(s)
    decreases |s|
  {
    if |s| == 0 then 0 else DigitsValue(s[..|s| - 1]) * 10 + DigitValue(s[|s| - 1])
  }

  /** Parses an optionally negative decimal integer; the inverse of `Decimal`. */
  function ParseDecimal(s: string): (r: Option<int>)
  {
    if |s| > 1 && s[0] == '-' && AllDigits(s[1..]) then Some(0 - DigitsValue(s[1..]) as int)
    else if |s| > 0 && AllDigits(s) then Some(DigitsValue(s))
    else None
  }

  lemma {:induction false} NatDigitsRoundTrip(n: nat)
    ensures DigitsValue(NatDigits(n)) == n
    decreases n
  {
    if n >= 10 {
      NatDigitsRoundTrip(n / 10);
      var s := NatDigits(n);
      assert s[..|s| - 1] == NatDigits(n / 10);
    }
  }

  /** Round trip: the decimal text of any integer parses back to it, sign included. */
  lemma DecimalRoundTrip(n: int)
    ensures ParseDecimal(Decimal(n)) == Some(n)
  {
    if n < 0 {
      NatDigitsRoundTrip(-n);
      assert Decimal(n)[1..] == NatDigits(-n);
    } else {
      NatDigitsRoundTrip(n);
    }
  }

  /** Distinct integers render differently. */
  lemma DecimalInjective(m: int, n: int)
    ensures Decimal(m) == Decimal(n) ==> m == n
  {
    DecimalRoundTrip(m);
    DecimalRoundTrip(n);
  }
}
