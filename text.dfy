/** The string operations src/index.js relies on: rendering an integer in a
    template literal, `String.prototype.match(/\d+/g)` and `parseInt` on a run
    of decimal digits. */
module Text {

  predicate IsDigit(c: char) {
    '0' <= c <= '9'
  }

  predicate AllDigits(s: string) {
    forall i :: 0 <= i < |s| ==> IsDigit(s[i])
  }

  predicate NoDigits(s: string) {
    forall i :: 0 <= i < |s| ==> !IsDigit(s[i])
  }

  function DigitChar(d: int): (c: char)
    requires 0 <= d < 10
    ensures IsDigit(c) && c as int - '0' as int == d
  {
    ('0' as int + d) as char
  }

  /** The decimal rendering of a non-negative integer, most significant digit
      first and without leading zeros. */
  function Decimal(n: nat): (s: string)
    ensures |s| > 0 && AllDigits(s)
    ensures |s| > 1 ==> s[0] != '0'
    decreases n
  {
    if n < 10 then [DigitChar(n)] else Decimal(n / 10) + [DigitChar(n % 10)]
  }

  /** How `${n}` renders an integer. */
  function Show(n: int): (s: string)
    ensures |s| > 0
    ensures n >= 0 ==> AllDigits(s)
    ensures n < 0 ==> s[0] == '-' && AllDigits(s[1..])
  {
    if n < 0 then "-" + Decimal(-n) else Decimal(n)
  }

  /** The digits of `${n}` spell `n`: they parse back to `n`, or to `-n`
      after the minus sign. */
  lemma ShowParses(n: int)
    ensures n >= 0 ==> ParseDecimal(Show(n)) == n
    ensures n < 0 ==> ParseDecimal(Show(n)[1..]) == -n
  {
    if n < 0 {
      assert Show(n)[1..] == Decimal(-n);
      ParseDecimalOfDecimal(-n);
    } else {
      ParseDecimalOfDecimal(n);
    }
  }

  /** `parseInt` of a run of decimal digits. */
  function ParseDecimal(s: string): nat
    requires AllDigits(s)
  {
    if s == [] then 0 else 10 * ParseDecimal(s[..|s| - 1]) + (s[|s| - 1] as int - '0' as int)
  }

  /** Parsing reads back what `Decimal` rendered. */
  lemma {:induction false} ParseDecimalOfDecimal(n: nat)
    ensures ParseDecimal(Decimal(n)) == n
    decreases n
  {
    if n >= 10 {
      var s := Decimal(n);
      assert s[..|s| - 1] == Decimal(n / 10);
      ParseDecimalOfDecimal(n / 10);
    }
  }

  /** The length of the run of digits at the front of `s`. */
  function LeadingDigits(s: string): (k: nat)
    ensures k <= |s|
    ensures AllDigits(s[..k])
    ensures k < |s| ==> !IsDigit(s[k])
  {
    if s == [] || !IsDigit(s[0]) then 0 else 1 + LeadingDigits(s[1..])
  }

  /** `s.match(/\d+/g)`: the maximal runs of decimal digits in `s`, in order
      (JavaScript returns `null` instead of an empty array; the model never
      looks at that case). */
  function DigitRuns(s: string): (runs: seq<string>)
    ensures forall i :: 0 <= i < |runs| ==> |runs[i]| > 0 && AllDigits(runs[i])
    decreases |s|
  {
    if s == [] then []
    else if !IsDigit(s[0]) then DigitRuns(s[1..])
    else
      var k := LeadingDigits(s);
      [s[..k]] + DigitRuns(s[k..])
  }

  /** Characters that are not digits are skipped by the match. */
  lemma {:induction false} DigitRunsSkip(p: string, s: string)
    requires NoDigits(p)
    ensures DigitRuns(p + s) == DigitRuns(s)
    decreases |p|
  {
    if p == [] {
      assert p + s == s;
    } else {
      assert (p + s)[0] == p[0];
      assert (p + s)[1..] == p[1..] + s;
      DigitRunsSkip(p[1..], s);
    }
  }

  /** A run of digits followed by a non-digit (or the end) is one match. */
  lemma {:induction false} DigitRunsTake(d: string, s: string)
    requires |d| > 0 && AllDigits(d)
    requires s == [] || !IsDigit(s[0])
    ensures DigitRuns(d + s) == [d] + DigitRuns(s)
  {
    LeadingDigitsOf(d, s);
    assert (d + s)[..|d|] == d;
    assert (d + s)[|d|..] == s;
  }

  /** A run of digits and then a separator without digits: the run is one
      match and the separator is skipped. */
  lemma RunThenSeparator(d: string, sep: string, rest: string)
    requires |d| > 0 && AllDigits(d) && |sep| > 0 && NoDigits(sep)
    ensures DigitRuns(d + (sep + rest)) == [d] + DigitRuns(rest)
  {
    assert (sep + rest)[0] == sep[0];
    DigitRunsTake(d, sep + rest);
    DigitRunsSkip(sep, rest);
  }

  /** Three runs of digits between separators that hold no digit are the
      first three matches. */
  lemma ThreeRuns(head: string, a: string, sep1: string, b: string, sep2: string, c: string, tail: string)
    requires NoDigits(head) && NoDigits(sep1) && NoDigits(sep2) && |sep1| > 0 && |sep2| > 0
    requires |a| > 0 && |b| > 0 && |c| > 0 && AllDigits(a) && AllDigits(b) && AllDigits(c)
    requires tail == [] || !IsDigit(tail[0])
    ensures DigitRuns(head + (a + (sep1 + (b + (sep2 + (c + tail))))))
         == [a] + ([b] + ([c] + DigitRuns(tail)))
  {
    DigitRunsTake(c, tail);
    RunThenSeparator(b, sep2, c + tail);
    RunThenSeparator(a, sep1, b + (sep2 + (c + tail)));
    DigitRunsSkip(head, a + (sep1 + (b + (sep2 + (c + tail)))));
  }

  /** Three numbers written in decimal between separators that hold no
      digit are the first three matches, and each parses back. */
  lemma ThreeNumbers(head: string, x: nat, sep1: string, y: nat, sep2: string, z: nat, tail: string)
    requires NoDigits(head) && NoDigits(sep1) && NoDigits(sep2)
    requires |sep1| > 0 && |sep2| > 0 && (tail == [] || !IsDigit(tail[0]))
    ensures var runs := DigitRuns(head + (Decimal(x) + (sep1 + (Decimal(y) + (sep2 + (Decimal(z) + tail))))));
            |runs| >= 3 &&
            ParseDecimal(runs[0]) == x && ParseDecimal(runs[1]) == y && ParseDecimal(runs[2]) == z
  {
    var dx, dy, dz := Decimal(x), Decimal(y), Decimal(z);
    ThreeRuns(head, dx, sep1, dy, sep2, dz, tail);
    var last := [dz] + DigitRuns(tail);
    var middle := [dy] + last;
    var runs := [dx] + middle;
    assert runs[1..] == middle && middle[1..] == last;
    ParseDecimalOfDecimal(x);
    ParseDecimalOfDecimal(y);
    ParseDecimalOfDecimal(z);
  }

  lemma {:induction false} LeadingDigitsOf(d: string, s: string)
    requires AllDigits(d)
    requires s == [] || !IsDigit(s[0])
    ensures LeadingDigits(d + s) == |d|
    decreases |d|
  {
    if d != [] {
      assert (d + s)[1..] == d[1..] + s;
      LeadingDigitsOf(d[1..], s);
    }
  }
}
