/** The sequence generators of src/index.js: `generateRandomGradientColors`
    (lines 59-65) and `generateRandomColorFamily` (lines 67-99), with the
    integer arithmetic of a family member (JavaScript's truncating `%` and the
    percentage clamp) as functions. */
module Generators {
  import opened Mulberry32
  import opened Text
  import opened Samplers

  /** A family element as the source returns it: a string the model renders,
      or the result of `convertColor(input, format)`, a call into tinycolor2
      that the model leaves abstract. */
  datatype Shown = Plain(text: string) | Converted(input: string, format: string)

  /** JavaScript's `a % 360`: the remainder of the division truncated toward
      zero, which carries the sign of `a` (Dafny's `%` is Euclidean). */
  function HueRemainder(a: int): (r: int)
    ensures -360 < r < 360
    ensures a >= 0 ==> r >= 0
    ensures a <= 0 ==> r <= 0
    ensures (a - r) % 360 == 0
  {
    if a >= 0 then a % 360 else -((-a) % 360)
  }

  /** The truncating remainder against Dafny's Euclidean one: they agree when
      the truncating one is non-negative and differ by 360 otherwise. */
  lemma HueRemainderVersusEuclidean(a: int)
    ensures HueRemainder(a) >= 0 ==> HueRemainder(a) == a % 360
    ensures HueRemainder(a) < 0 ==> HueRemainder(a) + 360 == a % 360
    ensures 0 <= a < 360 ==> HueRemainder(a) == a
  {
    var r := HueRemainder(a);
    var q := (a - r) / 360;
    assert a == q * 360 + r;
    if r >= 0 {
      EuclideanUnique(a, q, r);
    } else {
      EuclideanUnique(a, q - 1, r + 360);
    }
  }

  lemma EuclideanUnique(a: int, q: int, r: int)
    requires 0 <= r < 360 && a == q * 360 + r
    ensures a % 360 == r
  {
    var q', r' := a / 360, a % 360;
    assert a == q' * 360 + r';
    assert (q - q') * 360 == r' - r;
    assert -360 < r' - r < 360;
  }

  /** `Math.max(0, Math.min(100, x))`. */
  function ClampPercent(x: int): (r: int)
    ensures 0 <= r <= 100
    ensures 0 <= x <= 100 ==> r == x
    ensures x < 0 ==> r == 0
    ensures x > 100 ==> r == 100
  {
    var low := if 100 < x then 100 else x;
    if 0 < low then low else 0
  }

  /** One derived family member (src/index.js:86-95): three draws perturb the
      anchor's hue, saturation and lightness. */
  function DeriveMember(hue: int, saturation: int, lightness: int,
                        hueRange: int, saturationRange: int, lightnessRange: int,
                        xs: seq<real>): (c: Color)
    requires |xs| == 3 && InUnit(xs)
    ensures c.Hsl? && c.alpha.None?
    ensures 0 <= c.saturation <= 100 && 0 <= c.lightness <= 100
    ensures -360 < c.hue < 360
  {
    Hsl(HueRemainder(hue + RandomNumber(-hueRange, hueRange, xs[0])),
        ClampPercent(saturation + RandomNumber(-saturationRange, saturationRange, xs[1])),
        ClampPercent(lightness + RandomNumber(-lightnessRange, lightnessRange, xs[2])),
        None)
  }

  /** The derived hue is the truncating remainder of `hue + delta` with
      `delta` in [-hueRange, hueRange]: it has the sign of that sum and equals
      it when the sum is in [0, 360), so a negative sum gives a non-positive hue. */
  lemma DerivedHue(hue: int, saturation: int, lightness: int,
                   hueRange: int, saturationRange: int, lightnessRange: int, xs: seq<real>)
    requires |xs| == 3 && InUnit(xs)
    ensures var delta := RandomNumber(-hueRange, hueRange, xs[0]);
            var h := DeriveMember(hue, saturation, lightness, hueRange, saturationRange, lightnessRange, xs).hue;
            (0 <= hueRange ==> -hueRange <= delta <= hueRange) &&
            (hueRange < 0 ==> hueRange < delta <= -hueRange) &&
            (hue + delta < 0 ==> h <= 0) && (hue + delta > 0 ==> h >= 0) &&
            (0 <= hue + delta < 360 ==> h == hue + delta) &&
            (h < 0 ==> h + 360 == (hue + delta) % 360) && (h >= 0 ==> h == (hue + delta) % 360)
  {
    RandomNumberBounds(-hueRange, hueRange, xs[0]);
    HueRemainderVersusEuclidean(hue + RandomNumber(-hueRange, hueRange, xs[0]));
  }

  /** How the family emits a derived member: the `hsl(...)` string itself for
      format 'hsl', else `convertColor` of that string. */
  function Present(format: string, c: Color): Shown {
    if format == "hsl" then Plain(Render(c)) else Converted(Render(c), format)
  }

  /** `baseColor.match(/\d+/g)` then `parseInt` on the first three matches
      reads back the hue, saturation and lightness the anchor was rendered
      from, with or without an alpha. */
  lemma AnchorDigitRuns(c: Color)
    requires c.Hsl? && 0 <= c.hue && 0 <= c.saturation && 0 <= c.lightness
    ensures var runs := DigitRuns(Render(c));
            |runs| >= 3 &&
            ParseDecimal(runs[0]) == c.hue &&
            ParseDecimal(runs[1]) == c.saturation &&
            ParseDecimal(runs[2]) == c.lightness
  {
    var head, tail := HslOpen(c.alpha), HslClose(c.alpha);
    assert NoDigits(head) && NoDigits(", ") && NoDigits("%, ");
    ThreeNumbers(head, c.hue, ", ", c.saturation, "%, ", c.lightness, tail);
  }

  /** The `Array.from` callback of src/index.js:85-97: three draws from
      `random`, one derived member, presented in `format`. */
  method GenerateFamilyMember(format: string, hue: int, saturation: int, lightness: int,
                              hueRange: int, saturationRange: int, lightnessRange: int,
                              random: Stream)
    returns (shown: Shown)
    requires random.Valid()
    modifies random
    ensures random.Advanced(3)
    ensures shown == Present(format, DeriveMember(hue, saturation, lightness,
                                                  hueRange, saturationRange, lightnessRange,
                                                  random.NewDraws()))
  {
    ghost var n := |random.drawn|;
    var hueDelta := GenerateRandomNumber(-hueRange, hueRange, random);
    ghost var x0 := random.drawn[n];
    var saturationDelta := GenerateRandomNumber(-saturationRange, saturationRange, random);
    ghost var x1 := random.drawn[n + 1];
    var lightnessDelta := GenerateRandomNumber(-lightnessRange, lightnessRange, random);
    ghost var x2 := random.drawn[n + 2];
    assert random.drawn[n..] == [x0, x1, x2];
    var newColor := Hsl(HueRemainder(hue + hueDelta),
                        ClampPercent(saturation + saturationDelta),
                        ClampPercent(lightness + lightnessDelta), None);
    assert newColor == DeriveMember(hue, saturation, lightness,
                                    hueRange, saturationRange, lightnessRange, [x0, x1, x2]);
    shown := Present(format, newColor);
  }

  /** `Array.from({ length: n })` takes a negative length as zero. */
  function Length(n: int): nat {
    if n > 0 then n else 0
  }

  /** `f` applied to each consecutive three of `xs`. */
  function Triples<T>(f: seq<real> --> T, xs: seq<real>): (ys: seq<T>)
    requires |xs| % 3 == 0 && InUnit(xs)
    requires forall t :: |t| == 3 && InUnit(t) ==> f.requires(t)
    ensures |ys| == |xs| / 3
  {
    seq(|xs| / 3, j requires 0 <= j < |xs| / 3 =>
      var t := xs[3 * j .. 3 * j + 3];
      assert |t| == 3 && InUnit(t);
      f(t))
  }

  /** Three more values add one element and leave the earlier ones alone. */
  lemma TriplesExtend<T>(f: seq<real> --> T, xs: seq<real>, ys: seq<real>)
    requires |xs| % 3 == 0 && |ys| == 3 && InUnit(xs) && InUnit(ys)
    requires forall t :: |t| == 3 && InUnit(t) ==> f.requires(t)
    ensures InUnit(xs + ys)
    ensures Triples(f, xs + ys) == Triples(f, xs) + [f(ys)]
  {
    var zs := xs + ys;
    assert InUnit(zs) by {
      forall k | 0 <= k < |zs| ensures 0.0 <= zs[k] < 1.0 {
        if k >= |xs| { assert zs[k] == ys[k - |xs|]; }
      }
    }
    var m := |xs| / 3;
    assert |xs| == 3 * m && |zs| / 3 == m + 1;
    var whole, front := Triples(f, zs), Triples(f, xs);
    forall j | 0 <= j < m ensures whole[j] == front[j] {
      assert 3 * j + 3 <= 3 * m;
      assert zs[3 * j .. 3 * j + 3] == xs[3 * j .. 3 * j + 3];
    }
    assert zs[3 * m .. 3 * m + 3] == ys;
  }

  /** The derived member, as presented, that three draws give. */
  function MemberOf(format: string, hue: int, saturation: int, lightness: int,
                    hueRange: int, saturationRange: int, lightnessRange: int): seq<real> --> Shown
  {
    t requires |t| == 3 && InUnit(t) =>
      Present(format, DeriveMember(hue, saturation, lightness, hueRange, saturationRange, lightnessRange, t))
  }

  /** The `Array.from({ length: count - 1 }, ...)` of src/index.js:84-98: a
      stream from `seed` perturbs the anchor triple once per derived member.
      The ghost `perturb` are the values drawn, three per member. */
  method DeriveMembers(format: string, n: nat, hue: int, saturation: int, lightness: int,
                       hueRange: int, saturationRange: int, lightnessRange: int, seed: Seed)
    returns (members: seq<Shown>, ghost perturb: seq<real>)
    ensures |perturb| == 3 * n && InUnit(perturb)
    ensures members == Triples(MemberOf(format, hue, saturation, lightness,
                                        hueRange, saturationRange, lightnessRange), perturb)
    ensures seed.Truthy() ==> perturb == Draws(seed.value, 3 * n)
  {
    var random := StreamFor(seed);
    members := [];
    for i := 0 to n
      invariant random.Valid() && random.seeded == seed.Truthy()
      invariant random.seeded ==> random.origin == seed.value
      invariant |random.drawn| == 3 * i
      invariant members == Triples(MemberOf(format, hue, saturation, lightness,
                                          hueRange, saturationRange, lightnessRange), random.drawn)
    {
      ghost var before := random.drawn;
      var shown := GenerateFamilyMember(format, hue, saturation, lightness,
                                        hueRange, saturationRange, lightnessRange, random);
      assert random.drawn == before + random.drawn[|before|..];
      TriplesExtend(MemberOf(format, hue, saturation, lightness, hueRange, saturationRange, lightnessRange),
                    before, random.drawn[|before|..]);
      members := members + [shown];
    }
    perturb := random.drawn;
  }

  /** src/index.js:79-80: the anchor is sampled as an hsl(a) colour from the
      seed, rendered, and its hue, saturation and lightness are read back from
      the string with `match(/\d+/g)` and `parseInt`. */
  method SampleAnchor(min: int, max: int, alpha: bool, seed: Seed)
    returns (text: string, hue: int, saturation: int, lightness: int,
             ghost anchor: Color, ghost anchorDraws: seq<real>)
    ensures |anchorDraws| == ChannelDraws(alpha) && InUnit(anchorDraws)
    ensures anchor == HslFromDraws(alpha, anchorDraws) && text == Render(anchor)
    ensures hue == anchor.hue && saturation == anchor.saturation && lightness == anchor.lightness
    ensures seed.Truthy() ==> anchorDraws == Draws(seed.value, ChannelDraws(alpha))
  {
    var baseColor;
    baseColor, anchorDraws := GenerateRandomColor("hsl", min, max, alpha, seed);
    assert DrawCount("hsl", alpha) == ChannelDraws(alpha);
    anchor := baseColor;
    text := Render(baseColor);
    var matches := DigitRuns(text);
    AnchorDigitRuns(baseColor);
    hue, saturation, lightness := ParseDecimal(matches[0]), ParseDecimal(matches[1]), ParseDecimal(matches[2]);
  }

  /** `generateRandomColorFamily(options)`. The anchor is sampled as an hsl(a)
      colour from the seed and returned as that very string whatever the
      format; its hue, saturation and lightness are read back from the string;
      a second stream from the same seed then perturbs that triple once per
      derived member, so with a truthy seed the first member's perturbation
      reuses the anchor's own first three draws. The ghost results expose the
      anchor, the draws it took and the perturbation draws. */
  method GenerateRandomColorFamily(format: string, count: int, min: int, max: int, alpha: bool,
                                   seed: Seed, hueRange: int, saturationRange: int,
                                   lightnessRange: int)
    returns (family: seq<Shown>, ghost anchor: Color, ghost anchorDraws: seq<real>,
             ghost perturb: seq<real>)
    ensures |family| == Length(count - 1) + 1
    ensures |anchorDraws| == ChannelDraws(alpha) && InUnit(anchorDraws)
    ensures anchor == HslFromDraws(alpha, anchorDraws)
    ensures family[0] == Plain(Render(anchor))
    ensures |perturb| == 3 * (|family| - 1) && InUnit(perturb)
    ensures forall i :: 1 <= i < |family| ==>
      family[i] == Present(format, DeriveMember(anchor.hue, anchor.saturation, anchor.lightness,
                                                hueRange, saturationRange, lightnessRange,
                                                perturb[3 * (i - 1) .. 3 * i]))
    ensures seed.Truthy() ==> anchorDraws == Draws(seed.value, ChannelDraws(alpha))
    ensures seed.Truthy() ==> perturb == Draws(seed.value, |perturb|)
    ensures seed.Truthy() && |perturb| >= 3 ==> perturb[..3] == anchorDraws[..3]
  {
    var text, hue, saturation, lightness;
    text, hue, saturation, lightness, anchor, anchorDraws := SampleAnchor(min, max, alpha, seed);
    var members;
    members, perturb := DeriveMembers(format, Length(count - 1), hue, saturation, lightness,
                                      hueRange, saturationRange, lightnessRange, seed);
    family := [Plain(text)] + members;
    forall i | 1 <= i < |family|
      ensures family[i] == Present(format, DeriveMember(hue, saturation, lightness,
                                                        hueRange, saturationRange, lightnessRange,
                                                        perturb[3 * (i - 1) .. 3 * i]))
    {
      assert family[i] == members[i - 1];
      assert 3 * i == 3 * (i - 1) + 3;
    }
    if seed.Truthy() && |perturb| >= 3 {
      DrawsCommonPrefix(seed.value, |perturb|, ChannelDraws(alpha), 3);
    }
  }

  /** The colour `mulberry32(0)` yields for these options. */
  function SeedZeroColor(format: string, min: int, max: int, alpha: bool): Color {
    ColorFromDraws(format, min, max, alpha, Draws(0.0, DrawCount(format, alpha)))
  }

  /** `generateRandomGradientColors(options)` as written: each element is
      `generateRandomColor` with the i-th draw of an outer stream as its seed.
      That draw is a fraction in [0,1), which the inner stream truncates away,
      so every element whose draw is non-zero is the seed-0 colour, seeded or
      not; a draw of exactly 0 is falsy and falls back to `Math.random`. */
  method GenerateRandomGradientColors(format: string, count: int, min: int, max: int, alpha: bool,
                                      seed: Seed)
    returns (colors: seq<Color>, ghost outer: seq<real>, ghost inner: seq<seq<real>>)
    ensures |colors| == Length(count) && |outer| == |colors| && |inner| == |colors|
    ensures InUnit(outer)
    ensures seed.Truthy() ==> outer == Draws(seed.value, |outer|)
    ensures forall i :: 0 <= i < |colors| ==>
      |inner[i]| == DrawCount(format, alpha) && InUnit(inner[i]) &&
      colors[i] == ColorFromDraws(format, min, max, alpha, inner[i])
    ensures forall i :: 0 <= i < |colors| && outer[i] != 0.0 ==>
      inner[i] == Draws(outer[i], DrawCount(format, alpha))
    ensures forall i :: 0 <= i < |colors| && outer[i] != 0.0 ==>
      colors[i] == SeedZeroColor(format, min, max, alpha)
  {
    var random := StreamFor(seed);
    colors, inner := [], [];
    for i := 0 to Length(count)
      invariant random.Valid() && random.seeded == seed.Truthy()
      invariant random.seeded ==> random.origin == seed.value
      invariant |random.drawn| == i && |colors| == i && |inner| == i
      invariant forall j :: 0 <= j < i ==>
        |inner[j]| == DrawCount(format, alpha) && InUnit(inner[j]) &&
        colors[j] == ColorFromDraws(format, min, max, alpha, inner[j])
      invariant forall j :: 0 <= j < i && random.drawn[j] != 0.0 ==>
        inner[j] == Draws(random.drawn[j], DrawCount(format, alpha)) &&
        colors[j] == SeedZeroColor(format, min, max, alpha)
    {
      var x := random.Next();
      var c;
      ghost var xs;
      c, xs := GenerateRandomColor(format, min, max, alpha, Num(x));
      if x != 0.0 {
        FractionalSeedActsAsZero(x, DrawCount(format, alpha));
      }
      colors, inner := colors + [c], inner + [xs];
    }
    outer := random.drawn;
  }

  /** The 32-bit word behind a draw: `Math.floor(x * 2 ** 32)`. */
  function ElementWord(x: real): (u: int)
    requires 0.0 <= x < 1.0
    ensures 0 <= u < TwoTo32
  {
    (x * TwoTo32 as real).Floor
  }

  /** On a seeded draw the element word is exactly the word the outer stream
      mixed. */
  lemma ElementWordOfOutput(c: real)
    ensures ElementWord(Output(c)) == Word(c)
  {
  }

  /** The gradient with the evident intent carried out: each element is seeded
      with the 32-bit word of the i-th outer draw, so each element draws from
      its own `mulberry32` stream. */
  method GenerateGradientWordSeeded(format: string, count: int, min: int, max: int, alpha: bool,
                                    seed: Seed)
    returns (colors: seq<Color>, ghost outer: seq<real>, ghost inner: seq<seq<real>>)
    ensures |colors| == Length(count) && |outer| == |colors| && |inner| == |colors|
    ensures InUnit(outer)
    ensures forall i :: 0 <= i < |colors| ==>
      |inner[i]| == DrawCount(format, alpha) && InUnit(inner[i]) &&
      colors[i] == ColorFromDraws(format, min, max, alpha, inner[i])
    ensures forall i :: 0 <= i < |colors| && ElementWord(outer[i]) != 0 ==>
      inner[i] == Draws(ElementWord(outer[i]) as real, DrawCount(format, alpha))
    ensures seed.Truthy() ==> outer == Draws(seed.value, |outer|)
    ensures seed.Truthy() ==> forall i :: 0 <= i < |colors| ==>
      ElementWord(outer[i]) == Word(Counter(seed.value, i + 1))
  {
    var random := StreamFor(seed);
    colors, inner := [], [];
    for i := 0 to Length(count)
      invariant random.Valid() && random.seeded == seed.Truthy()
      invariant random.seeded ==> random.origin == seed.value
      invariant |random.drawn| == i && |colors| == i && |inner| == i
      invariant forall j :: 0 <= j < i ==>
        |inner[j]| == DrawCount(format, alpha) && InUnit(inner[j]) &&
        colors[j] == ColorFromDraws(format, min, max, alpha, inner[j])
      invariant forall j :: 0 <= j < i && ElementWord(random.drawn[j]) != 0 ==>
        inner[j] == Draws(ElementWord(random.drawn[j]) as real, DrawCount(format, alpha))
    {
      var x := random.Next();
      var c;
      ghost var xs;
      c, xs := GenerateRandomColor(format, min, max, alpha, Num(ElementWord(x) as real));
      colors, inner := colors + [c], inner + [xs];
    }
    outer := random.drawn;
    if seed.Truthy() {
      ElementWordsOfDraws(seed.value, |outer|);
    }
  }

  /** The element words of a seeded outer stream are the words it mixed. */
  lemma ElementWordsOfDraws(seed: real, n: nat)
    ensures forall i :: 0 <= i < n ==> ElementWord(Draws(seed, n)[i]) == Word(Counter(seed, i + 1))
  {
    forall i | 0 <= i < n ensures ElementWord(Draws(seed, n)[i]) == Word(Counter(seed, i + 1)) {
      ElementWordOfOutput(Counter(seed, i + 1));
    }
  }

  /** Distinct element words give element streams that never share a 32-bit
      state at the same step. */
  lemma DistinctWordsDistinctStates(a: nat, b: nat, k: nat)
    requires a < TwoTo32 && b < TwoTo32 && a != b
    ensures State(Counter(a as real, k)) != State(Counter(b as real, k))
  {
    var step := k * Increment;
    assert Counter(a as real, k) == (a + step) as real;
    assert Counter(b as real, k) == (b + step) as real;
    IntegerState(a + step);
    IntegerState(b + step);
    if (a + step) % TwoTo32 == (b + step) % TwoTo32 {
      ModShift(a + step, b + step, -step);
      assert false;
    }
  }

  /** As written, any two gradient elements whose outer draws are non-zero
      are the same colour, whatever those draws are. */
  lemma AsWrittenElementsAgree(format: string, min: int, max: int, alpha: bool, x: real, y: real)
    requires 0.0 < x < 1.0 && 0.0 < y < 1.0
    ensures ColorFromDraws(format, min, max, alpha, Draws(x, DrawCount(format, alpha)))
         == ColorFromDraws(format, min, max, alpha, Draws(y, DrawCount(format, alpha)))
  {
    FractionalSeedActsAsZero(x, DrawCount(format, alpha));
    FractionalSeedActsAsZero(y, DrawCount(format, alpha));
  }
}
