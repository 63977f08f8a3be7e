/** The colour samplers of src/index.js (lines 18-57): an integer in a range,
    a hex colour, an rgb(a) colour, an hsl(a) colour, and the dispatcher
    `generateRandomColor`.

    Each sampler is modelled twice: as a pure function of the values it draws
    (`HexFromDraws`, `RgbFromDraws`, ...), which the lemmas talk about, and as
    a method that threads a `Stream` exactly as the JavaScript threads
    `random`, proved to compute that function of the values it drew. */
module Samplers {
  import opened Mulberry32
  import opened Text

  datatype Option<T> = None | Some(value: T)

  /** One hexadecimal digit, an index into `HexLetters`. */
  type Nibble = d: int | 0 <= d < 16

  /** An alpha value as rendered by `toFixed(2)`: a whole number of hundredths. */
  type Hundredths = a: int | 0 <= a <= 100

  const HexLetters: string := "0123456789ABCDEF"

  /** A generated colour before it is rendered as a CSS string. */
  datatype Color =
    | Hex(digits: seq<Nibble>)
    | Rgb(red: int, green: int, blue: int, alpha: Option<Hundredths>)
    | Hsl(hue: int, saturation: int, lightness: int, alpha: Option<Hundredths>)

  /** `x.toFixed(2)` for `x == a / 100`. */
  function FixedTwo(a: Hundredths): (s: string)
    ensures |s| == 4 && s[1] == '.'
    ensures AllDigits(s[..1] + s[2..]) && ParseDecimal(s[..1] + s[2..]) == a
  {
    var s := Show(a / 100) + "." + [DigitChar(a / 10 % 10), DigitChar(a % 10)];
    assert Show(a / 100) == [DigitChar(a / 100)];
    var digits := s[..1] + s[2..];
    assert digits == [DigitChar(a / 100), DigitChar(a / 10 % 10), DigitChar(a % 10)];
    assert digits[..2] == [DigitChar(a / 100), DigitChar(a / 10 % 10)];
    assert digits[..2][..1] == [DigitChar(a / 100)];
    assert digits[..2][..1][..0] == [];
    assert ParseDecimal(digits[..2][..1]) == a / 100;
    assert ParseDecimal(digits[..2]) == 10 * (a / 100) + a / 10 % 10;
    assert ParseDecimal(digits) == 100 * (a / 100) + 10 * (a / 10 % 10) + a % 10;
    assert a == 100 * (a / 100) + 10 * (a / 10 % 10) + a % 10 by {
      if a == 100 {} else { assert a / 100 == 0 && a / 10 % 10 == a / 10; }
    }
    s
  }

  /** The CSS string the source builds with its template literals: `#` and
      the hex digits, or the functional notation. Its shape is stated by
      `RgbShape`, `HslShape` and `HexFromDraws`, and `RgbDigitRuns` and
      `AnchorDigitRuns` read the numbers back from it. */
  function Render(c: Color): string {
    match c
    case Hex(ds) => "#" + seq(|ds|, i requires 0 <= i < |ds| => HexLetters[ds[i]])
    case Rgb(r, g, b, a) =>
      RgbOpen(a) + (Show(r) + (", " + (Show(g) + (", " + (Show(b) + RgbClose(a))))))
    case Hsl(h, s, l, a) =>
      HslOpen(a) + (Show(h) + (", " + (Show(s) + ("%, " + (Show(l) + HslClose(a))))))
  }

  /** A rendered rgb colour starts with `rgb(`, or `rgba(` exactly when it
      carries an alpha, and ends with `)`. */
  lemma RgbShape(c: Color)
    requires c.Rgb?
    ensures |Render(c)| > 5 && Render(c)[|Render(c)| - 1] == ')'
    ensures c.alpha.None? ==> Render(c)[..4] == "rgb("
    ensures c.alpha.Some? ==> Render(c)[..5] == "rgba("
  {
    OpenAndClose(RgbOpen(c.alpha), [Show(c.red), ", ", Show(c.green), ", ", Show(c.blue)], RgbClose(c.alpha));
  }

  /** A rendered hsl colour starts with `hsl(`, or `hsla(` exactly when it
      carries an alpha, and ends with `)`. */
  lemma HslShape(c: Color)
    requires c.Hsl?
    ensures |Render(c)| > 5 && Render(c)[|Render(c)| - 1] == ')'
    ensures c.alpha.None? ==> Render(c)[..4] == "hsl("
    ensures c.alpha.Some? ==> Render(c)[..5] == "hsla("
  {
    OpenAndClose(HslOpen(c.alpha), [Show(c.hue), ", ", Show(c.saturation), "%, ", Show(c.lightness)],
                 HslClose(c.alpha));
  }

  /** `open + (p0 + (p1 + (p2 + (p3 + (p4 + close)))))` starts with `open`
      and ends with the last character of `close`. */
  lemma OpenAndClose(open: string, parts: seq<string>, close: string)
    requires |parts| == 5 && |parts[0]| > 0 && |close| > 0
    ensures var s := open + (parts[0] + (parts[1] + (parts[2] + (parts[3] + (parts[4] + close)))));
            |s| > |open| + |close| && s[..|open|] == open && s[|s| - 1] == close[|close| - 1]
  {
    var t4 := parts[4] + close;
    var t3 := parts[3] + t4;
    var t2 := parts[2] + t3;
    var t1 := parts[1] + t2;
    var t0 := parts[0] + t1;
    LastOfConcat(parts[4], close);
    LastOfConcat(parts[3], t4);
    LastOfConcat(parts[2], t3);
    LastOfConcat(parts[1], t2);
    LastOfConcat(parts[0], t1);
    LastOfConcat(open, t0);
    assert (open + t0)[..|open|] == open;
  }

  lemma LastOfConcat(x: string, y: string)
    requires |y| > 0
    ensures (x + y)[|x + y| - 1] == y[|y| - 1]
  {
  }

  /** `rgb(` or `rgba(`. */
  function RgbOpen(alpha: Option<Hundredths>): string {
    if alpha.None? then "rgb(" else "rgba("
  }

  /** What follows the blue channel: `)`, or `, ` and the alpha and `)`. */
  function RgbClose(alpha: Option<Hundredths>): string {
    if alpha.None? then ")" else ", " + FixedTwo(alpha.value) + ")"
  }

  /** Matching `/\d+/g` on a rendered rgb(a) colour with non-negative
      channels, then `parseInt`, reads back red, green and blue, with or
      without an alpha. */
  lemma RgbDigitRuns(c: Color)
    requires c.Rgb? && 0 <= c.red && 0 <= c.green && 0 <= c.blue
    ensures var runs := DigitRuns(Render(c));
            |runs| >= 3 &&
            ParseDecimal(runs[0]) == c.red &&
            ParseDecimal(runs[1]) == c.green &&
            ParseDecimal(runs[2]) == c.blue
  {
    var head, tail := RgbOpen(c.alpha), RgbClose(c.alpha);
    assert NoDigits(head) && NoDigits(", ");
    ThreeNumbers(head, c.red, ", ", c.green, ", ", c.blue, tail);
  }

  /** `hsl(` or `hsla(`. */
  function HslOpen(alpha: Option<Hundredths>): string {
    if alpha.None? then "hsl(" else "hsla("
  }

  /** What follows the lightness: `%)`, or `%, ` and the alpha and `)`. */
  function HslClose(alpha: Option<Hundredths>): string {
    if alpha.None? then "%)" else "%, " + FixedTwo(alpha.value) + ")"
  }

  /** `Math.floor(x * (max - min + 1)) + min` for a draw `x`. */
  function RandomNumber(min: int, max: int, x: real): int {
    (x * (max - min + 1) as real).Floor + min
  }

  /** The sampled integer lies in [min, max] when the bounds are ordered; when
      they are swapped (a caller error the source does not check) it lies in
      (max, min]. */
  lemma RandomNumberBounds(min: int, max: int, x: real)
    requires 0.0 <= x < 1.0
    ensures min <= max ==> min <= RandomNumber(min, max, x) <= max
    ensures max < min ==> max < RandomNumber(min, max, x) <= min
  {
    var n := (max - min + 1) as real;
    var y := x * n;
    if n > 0.0 {
      assert 0.0 <= y by { assert 0.0 <= x && 0.0 < n; }
      assert y < n by { assert n - y == (1.0 - x) * n; assert (1.0 - x) * n > 0.0; }
    } else {
      assert y <= 0.0 by { assert 0.0 <= x && n <= 0.0; assert -y == x * -n; }
      assert n <= y by { assert y - n == (1.0 - x) * -n; assert (1.0 - x) * -n >= 0.0; }
    }
  }

  /** On a seeded draw `u / 2^32` the double product is exact (for ranges the
      source uses), so the sample is plain integer arithmetic on the word `u`. */
  lemma RandomNumberOfWord(min: int, max: int, u: nat)
    requires u < TwoTo32
    ensures RandomNumber(min, max, u as real / TwoTo32 as real)
         == u * (max - min + 1) / TwoTo32 + min
  {
    var n := max - min + 1;
    var p := u * n;
    var q, r := p / TwoTo32, p % TwoTo32;
    assert p == q * TwoTo32 + r;
    var y := (u as real / TwoTo32 as real) * n as real;
    assert y == p as real / TwoTo32 as real by {
      assert (u as real) * (n as real) == p as real;
    }
    assert y == q as real + r as real / TwoTo32 as real;
    assert y.Floor == q;
  }

  /** `Math.floor(x * 16)`: the index of one hex digit. */
  function HexDigit(x: real): (d: Nibble)
    requires 0.0 <= x < 1.0
    ensures d == RandomNumber(0, 15, x)
  {
    (x * 16.0).Floor
  }

  /** `x.toFixed(2)` as a number of hundredths: the integer nearest to `100 x`,
      the larger one on a tie. */
  function Alpha(x: real): (a: Hundredths)
    requires 0.0 <= x < 1.0
    ensures a as real - 0.5 <= 100.0 * x < a as real + 0.5
  {
    (100.0 * x + 0.5).Floor
  }

  /** The number of draws an rgb or hsl colour takes. */
  function ChannelDraws(alpha: bool): nat {
    if alpha then 4 else 3
  }

  /** The number of draws `generateRandomColor` takes for a format. */
  function DrawCount(format: string, alpha: bool): nat {
    if format == "rgb" || format == "hsl" then ChannelDraws(alpha) else 6
  }

  /** `generateRandomHexColor` on its six draws: '#' and six characters of
      `0123456789ABCDEF`, digit `i` from draw `i`. */
  function HexFromDraws(xs: seq<real>): (c: Color)
    requires |xs| == 6 && InUnit(xs)
    ensures c.Hex? && |c.digits| == 6
    ensures forall i :: 0 <= i < 6 ==> c.digits[i] == RandomNumber(0, 15, xs[i])
    ensures |Render(c)| == 7 && Render(c)[0] == '#'
    ensures forall i :: 1 <= i < 7 ==> Render(c)[i] in HexLetters
  {
    Hex(seq(6, i requires 0 <= i < 6 => HexDigit(xs[i])))
  }

  /** `generateRandomRGBColor` on its draws: red, green, blue, then alpha. */
  function RgbFromDraws(min: int, max: int, alpha: bool, xs: seq<real>): (c: Color)
    requires |xs| == ChannelDraws(alpha) && InUnit(xs)
    ensures c.Rgb? && (c.alpha.Some? <==> alpha)
    ensures min <= max ==> min <= c.red <= max && min <= c.green <= max && min <= c.blue <= max
    ensures c.red == RandomNumber(min, max, xs[0]) && c.green == RandomNumber(min, max, xs[1]) &&
            c.blue == RandomNumber(min, max, xs[2])
    ensures alpha ==> c.alpha.value == Alpha(xs[3])
  {
    RandomNumberBounds(min, max, xs[0]);
    RandomNumberBounds(min, max, xs[1]);
    RandomNumberBounds(min, max, xs[2]);
    Rgb(RandomNumber(min, max, xs[0]), RandomNumber(min, max, xs[1]), RandomNumber(min, max, xs[2]),
        if alpha then Some(Alpha(xs[3])) else None)
  }

  /** `generateRandomHSLColor` on its draws: hue, saturation, lightness, then
      alpha; the caller's min/max play no part. */
  function HslFromDraws(alpha: bool, xs: seq<real>): (c: Color)
    requires |xs| == ChannelDraws(alpha) && InUnit(xs)
    ensures c.Hsl? && (c.alpha.Some? <==> alpha)
    ensures 0 <= c.hue <= 360 && 0 <= c.saturation <= 100 && 0 <= c.lightness <= 100
    ensures c.hue == RandomNumber(0, 360, xs[0]) && c.saturation == RandomNumber(0, 100, xs[1]) &&
            c.lightness == RandomNumber(0, 100, xs[2])
    ensures alpha ==> c.alpha.value == Alpha(xs[3])
  {
    RandomNumberBounds(0, 360, xs[0]);
    RandomNumberBounds(0, 100, xs[1]);
    RandomNumberBounds(0, 100, xs[2]);
    Hsl(RandomNumber(0, 360, xs[0]), RandomNumber(0, 100, xs[1]), RandomNumber(0, 100, xs[2]),
        if alpha then Some(Alpha(xs[3])) else None)
  }

  /** What a colour sampled for these options looks like. */
  ghost predicate Sampled(c: Color, format: string, min: int, max: int, alpha: bool) {
    if format == "rgb" then
      c.Rgb? && (c.alpha.Some? <==> alpha) &&
      (min <= max ==> min <= c.red <= max && min <= c.green <= max && min <= c.blue <= max)
    else if format == "hsl" then
      c.Hsl? && (c.alpha.Some? <==> alpha) &&
      0 <= c.hue <= 360 && 0 <= c.saturation <= 100 && 0 <= c.lightness <= 100
    else
      c.Hex? && |c.digits| == 6
  }

  /** The `switch (format)` of `generateRandomColor` on the draws it takes;
      any format other than 'rgb' and 'hsl' gives hex. */
  function ColorFromDraws(format: string, min: int, max: int, alpha: bool, xs: seq<real>): (c: Color)
    requires |xs| == DrawCount(format, alpha) && InUnit(xs)
    ensures Sampled(c, format, min, max, alpha)
  {
    if format == "rgb" then RgbFromDraws(min, max, alpha, xs)
    else if format == "hsl" then HslFromDraws(alpha, xs)
    else HexFromDraws(xs)
  }

  /** `generateRandomNumber(min, max, random)`: one draw. */
  method GenerateRandomNumber(min: int, max: int, random: Stream) returns (r: int)
    requires random.Valid()
    modifies random
    ensures random.Advanced(1) && r == RandomNumber(min, max, random.NewDraws()[0])
  {
    var x := random.Next();
    r := (x * (max - min + 1) as real).Floor + min;
  }

  /** `generateRandomHexColor(random)`: six draws, one per digit, in order. */
  method GenerateRandomHexColor(random: Stream) returns (c: Color)
    requires random.Valid()
    modifies random
    ensures random.Advanced(6) && c == HexFromDraws(random.NewDraws())
  {
    var digits: seq<Nibble> := [];
    for i := 0 to 6
      invariant random.Advanced(i) && |digits| == i
      invariant forall j :: 0 <= j < i ==> digits[j] == HexDigit(random.NewDraws()[j])
    {
      var x := random.Next();
      digits := digits + [HexDigit(x)];
    }
    c := Hex(digits);
  }

  /** `generateRandomRGBColor(min, max, alpha, random)`. */
  method GenerateRandomRGBColor(min: int, max: int, alpha: bool, random: Stream) returns (c: Color)
    requires random.Valid()
    modifies random
    ensures random.Advanced(ChannelDraws(alpha)) && c == RgbFromDraws(min, max, alpha, random.NewDraws())
  {
    ghost var n := |random.drawn|;
    var red := GenerateRandomNumber(min, max, random);
    var green := GenerateRandomNumber(min, max, random);
    var blue := GenerateRandomNumber(min, max, random);
    assert random.drawn[n..] == [random.drawn[n], random.drawn[n + 1], random.drawn[n + 2]];
    if alpha {
      var x := random.Next();
      c := Rgb(red, green, blue, Some(Alpha(x)));
    } else {
      c := Rgb(red, green, blue, None);
    }
  }

  /** `generateRandomHSLColor(alpha, random)`. */
  method GenerateRandomHSLColor(alpha: bool, random: Stream) returns (c: Color)
    requires random.Valid()
    modifies random
    ensures random.Advanced(ChannelDraws(alpha)) && c == HslFromDraws(alpha, random.NewDraws())
  {
    ghost var n := |random.drawn|;
    var hue := GenerateRandomNumber(0, 360, random);
    var saturation := GenerateRandomNumber(0, 100, random);
    var lightness := GenerateRandomNumber(0, 100, random);
    assert random.drawn[n..] == [random.drawn[n], random.drawn[n + 1], random.drawn[n + 2]];
    if alpha {
      var x := random.Next();
      c := Hsl(hue, saturation, lightness, Some(Alpha(x)));
    } else {
      c := Hsl(hue, saturation, lightness, None);
    }
  }

  /** `generateRandomColor({format, min, max, alpha, seed})`: a fresh stream
      from a truthy seed (else `Math.random`), then the format's sampler. The
      ghost `xs` are the values drawn (from `Math.random`, some values in
      [0, 1) that give the same samples); with a truthy seed they are the first
      draws of `mulberry32(seed)`, so the colour is a function of the options. */
  method GenerateRandomColor(format: string, min: int, max: int, alpha: bool, seed: Seed)
    returns (c: Color, ghost xs: seq<real>)
    ensures Sampled(c, format, min, max, alpha)
    ensures |xs| == DrawCount(format, alpha) && InUnit(xs)
    ensures c == ColorFromDraws(format, min, max, alpha, xs)
    ensures seed.Truthy() ==> xs == Draws(seed.value, DrawCount(format, alpha))
  {
    var random := StreamFor(seed);
    if format == "rgb" {
      c := GenerateRandomRGBColor(min, max, alpha, random);
    } else if format == "hsl" {
      c := GenerateRandomHSLColor(alpha, random);
    } else {
      c := GenerateRandomHexColor(random);
    }
    xs := random.drawn;
  }
}
