/** Text helpers the exporters rely on: JavaScript's rendering of an integer inside a
    template literal, `String.prototype.toUpperCase` on ASCII letters, `Array.prototype.join`,
    and the `Math.round(base * Math.pow(ratio, n))` heading figures. */
module Text {

  import opened Wrappers

  // ---------------------------------------------------------------- integers

  predicate IsDigit(c: char) { '0' <= c <= '9' }

  predicate AllDigits(s: string) { forall i :: 0 <= i < |s| ==> IsDigit(s[i]) }

  function DigitChar(d: nat): (c: char)
    requires d < 10
    ensures IsDigit(c) && (c as int) - ('0' as int) == d
  {
    (('0' as int) + d) as char
  }

  function DigitValue(c: char): (d: nat)
    requires IsDigit(c)
    ensures d < 10 && DigitChar(d) == c
  {
    (c as int) - ('0' as int)
  }

  /** Decimal digits of `n`, most significant first, without leading zeros. */
  function NatToString(n: nat): (s: string)
    ensures |s| >= 1 && AllDigits(s)
    ensures |s| > 1 ==> s[0] != '0'
    ensures n < 10 <==> |s| == 1
  {
    if n < 10 then [DigitChar(n)] else NatToString(n / 10) + [DigitChar(n % 10)]
  }

  /** What `${n}` prints for an integer-valued JavaScript number. */
  function IntToString(n: int): (s: string)
    ensures |s| >= 1
    ensures n < 0 <==> s[0] == '-'
  {
    if n < 0 then "-" + NatToString(-n) else NatToString(n)
  }

  /** Reads a run of decimal digits (0 for none). */
  function ParseNat(s: string): (n: nat)
    requires AllDigits(s)
    decreases |s|
  {
    if |s| == 0 then 0 else ParseNat(s[..|s| - 1]) * 10 + DigitValue(s[|s| - 1])
  }

  /** Reads an optionally signed decimal integer; anything else is rejected. */
  function ParseInt(s: string): (r: Option<int>)
    ensures r.Some? ==> |s| >= 1
  {
    if |s| >= 2 && s[0] == '-' && AllDigits(s[1..]) then Some(-(ParseNat(s[1..]) as int))
    else if |s| >= 1 && AllDigits(s) then Some(ParseNat(s))
    else None
  }

  lemma {:induction false} ParseNatToString(n: nat)
    ensures ParseNat(NatToString(n)) == n
  {
    var s := NatToString(n);
    if n >= 10 {
      var prefix := NatToString(n / 10);
      assert s[..|s| - 1] == prefix;
      ParseNatToString(n / 10);
    }
  }

  /** Printing an integer and reading it back gives the integer again. */
  lemma ParseIntToString(n: int)
    ensures ParseInt(IntToString(n)) == Some(n)
  {
    var s := IntToString(n);
    if n < 0 {
      var t := NatToString(-n);
      assert s == "-" + t && s[1..] == t;
      assert s[0] == '-' && AllDigits(s[1..]);
      ParseNatToString(-n);
    } else {
      assert !(s[0] == '-') by { assert IsDigit(s[0]); }
      ParseNatToString(n);
    }
  }

  /** Two integers print alike only if they are equal. */
  lemma IntToStringInjective(m: int, n: int)
    requires IntToString(m) == IntToString(n)
    ensures m == n
  {
    ParseIntToString(m);
    ParseIntToString(n);
  }

  /** A text with a non-empty prefix opens with the prefix's first character. */
  lemma PrefixHead(prefix: string, s: string)
    requires |prefix| > 0 && prefix <= s
    ensures |s| > 0 && s[0] == prefix[0]
  {
  }

  // ---------------------------------------------------------------- suffixes

  predicate EndsWith(s: string, suffix: string)
  {
    |suffix| <= |s| && s[|s| - |suffix|..] == suffix
  }

  /** Reads back an integer printed with a unit suffix such as "px" or "ms". */
  function ParseMeasure(s: string, unit: string): (r: Option<int>)
    ensures r.Some? ==> EndsWith(s, unit)
  {
    if EndsWith(s, unit) then ParseInt(s[..|s| - |unit|]) else None
  }

  lemma MeasureRoundTrip(n: int, unit: string)
    ensures ParseMeasure(IntToString(n) + unit, unit) == Some(n)
  {
    var s := IntToString(n) + unit;
    assert s[|s| - |unit|..] == unit;
    assert s[..|s| - |unit|] == IntToString(n);
    ParseIntToString(n);
  }

  // ---------------------------------------------------------------- case

  predicate IsLower(c: char) { 'a' <= c <= 'z' }

  predicate NoLower(s: string) { forall i :: 0 <= i < |s| ==> !IsLower(s[i]) }

  function UpperChar(c: char): (u: char)
    ensures !IsLower(u)
    ensures !IsLower(c) ==> u == c
    ensures IsLower(c) ==> 'A' <= u <= 'Z' && (u as int) + 32 == c as int
  {
    if IsLower(c) then ((c as int) - 32) as char else c
  }

  /** `toUpperCase`, restricted to ASCII letters. */
  function Upper(s: string): (r: string)
    ensures |r| == |s| && NoLower(r)
  {
    seq(|s|, i requires 0 <= i < |s| => UpperChar(s[i]))
  }

  /** Upper-casing keeps every character that is not a lower-case letter and moves each
      lower-case letter down by 32 code points, onto its capital. */
  lemma UpperPointwise(s: string)
    ensures forall i :: 0 <= i < |s| && !IsLower(s[i]) ==> Upper(s)[i] == s[i]
    ensures forall i :: 0 <= i < |s| && IsLower(s[i]) ==> (Upper(s)[i] as int) + 32 == s[i] as int
  {
  }

  /** Upper-casing changes nothing in a string that has no lower-case letter. */
  lemma UpperFixesNoLower(s: string)
    requires NoLower(s)
    ensures Upper(s) == s
  {
  }

  lemma UpperIdempotent(s: string)
    ensures Upper(Upper(s)) == Upper(s)
  {
    UpperFixesNoLower(Upper(s));
  }

  // ---------------------------------------------------------------- join

  /** `lines.join(sep)`. */
  function Join(lines: seq<string>, sep: string): string
  {
    if |lines| == 0 then ""
    else if |lines| == 1 then lines[0]
    else lines[0] + sep + Join(lines[1..], sep)
  }

  lemma {:induction false} JoinStartsWithFirst(lines: seq<string>, sep: string)
    requires |lines| >= 1
    ensures lines[0] <= Join(lines, sep)
  {
  }

  lemma {:induction false} JoinEndsWithLast(lines: seq<string>, sep: string)
    requires |lines| >= 1
    ensures EndsWith(Join(lines, sep), lines[|lines| - 1])
  {
    if |lines| > 1 {
      JoinEndsWithLast(lines[1..], sep);
      var tail := Join(lines[1..], sep);
      var last := lines[|lines| - 1];
      var whole := lines[0] + sep + tail;
      assert whole[|whole| - |last|..] == tail[|tail| - |last|..];
    }
  }

  /** Joining a concatenation puts the separator between the two joined halves. */
  lemma {:induction false} JoinAppend(a: seq<string>, b: seq<string>, sep: string)
    requires |a| >= 1 && |b| >= 1
    ensures Join(a + b, sep) == Join(a, sep) + sep + Join(b, sep)
  {
    if |a| == 1 {
      assert (a + b)[1..] == b;
    } else {
      assert (a + b)[1..] == a[1..] + b;
      JoinAppend(a[1..], b, sep);
    }
  }

  /** `line` is a whole inner line of `text`: separators on both sides of it. */
  ghost predicate IsInnerLine(line: string, text: string, sep: string)
  {
    exists pre: string, post: string :: text == pre + sep + line + sep + post
  }

  /** Every line other than the first and the last of a joined list is an inner line of
      the joined text. */
  lemma JoinInnerLine(lines: seq<string>, sep: string, i: int)
    requires 0 < i < |lines| - 1
    ensures IsInnerLine(lines[i], Join(lines, sep), sep)
  {
    assert lines[..i] + lines[i..] == lines;
    assert [lines[i]] + lines[i + 1..] == lines[i..];
    JoinAppend(lines[..i], lines[i..], sep);
    JoinAppend([lines[i]], lines[i + 1..], sep);
    var pre := Join(lines[..i], sep);
    var post := Join(lines[i + 1..], sep);
    assert Join(lines, sep) == pre + sep + lines[i] + sep + post;
  }

  /** A line of the middle part of a block framed by an opening and a closing line is an
      inner line of the joined block. */
  lemma InnerLineOfBlock(first: string, mid: seq<string>, last: string, sep: string, line: string)
    requires line in mid
    ensures IsInnerLine(line, Join([first] + mid + [last], sep), sep)
  {
    var i :| 0 <= i < |mid| && mid[i] == line;
    var lines := [first] + mid + [last];
    assert lines[i + 1] == line;
    JoinInnerLine(lines, sep, i + 1);
  }

  // ---------------------------------------------------------------- rounding

  function Pow(x: real, n: nat): (r: real)
    ensures x >= 1.0 ==> r >= 1.0
    ensures x > 0.0 ==> r > 0.0
  {
    if n == 0 then 1.0 else x * Pow(x, n - 1)
  }

  /** `Math.round`: the nearest integer, halves rounded up. */
  function Round(x: real): (r: int)
    ensures r as real <= x + 0.5 < r as real + 1.0
  {
    (x + 0.5).Floor
  }

  lemma RoundMonotone(x: real, y: real)
    requires x <= y
    ensures Round(x) <= Round(y)
  {
  }

  /** `Math.round(base * Math.pow(ratio, level))`: a heading size of the type scale. */
  function ScaleStep(base: int, ratio: real, level: nat): (px: int)
    ensures px as real - 0.5 <= base as real * Pow(ratio, level) < px as real + 0.5
  {
    Round(base as real * Pow(ratio, level))
  }

  /** A power of a ratio of at least one grows with the exponent. */
  lemma {:induction false} PowMonotone(ratio: real, lo: nat, hi: nat)
    requires ratio >= 1.0 && lo <= hi
    ensures Pow(ratio, lo) <= Pow(ratio, hi)
    decreases hi - lo
  {
    if lo < hi {
      PowMonotone(ratio, lo, hi - 1);
      var p := Pow(ratio, hi - 1);
      assert Pow(ratio, hi) == ratio * p;
      assert (ratio - 1.0) * p >= 0.0;
    }
  }

  lemma ScaleByNonNegative(base: real, x: real, y: real)
    requires base >= 0.0 && x <= y
    ensures base * x <= base * y
  {
    assert base * (y - x) >= 0.0;
  }

  /** With a non-negative base and a ratio of at least one, a higher level is never smaller. */
  lemma ScaleStepMonotone(base: int, ratio: real, lo: nat, hi: nat)
    requires base >= 0 && ratio >= 1.0 && lo <= hi
    ensures ScaleStep(base, ratio, lo) <= ScaleStep(base, ratio, hi)
  {
    PowMonotone(ratio, lo, hi);
    ScaleByNonNegative(base as real, Pow(ratio, lo), Pow(ratio, hi));
    RoundMonotone(base as real * Pow(ratio, lo), base as real * Pow(ratio, hi));
  }
}
