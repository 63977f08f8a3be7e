# Seeded random colour generation

This project models the deterministic colour pipeline of `src/index.js` in
the colour-utility package, and proves properties of it in Dafny:

- the Mulberry32 pseudo-random generator, a closure over a counter;
- the samplers built on it: an integer in a range, and hex, rgb(a) and hsl(a)
  colours;
- the `generateRandomColor` dispatcher, with its seed-or-`Math.random` choice;
- the two sequence generators, `generateRandomGradientColors` and
  `generateRandomColorFamily`.

Modules:

- `Mulberry32` (`mulberry32.dfy`) holds the generator.
  - `Draws(seed, n)` is the pure specification of the first `n` outputs.
  - The class `Stream` is the `random` variable the source threads through
    every sampler. Its method `Next` is one call of `random()`, proved to
    yield the next element of `Draws`.
  - The JavaScript counter is a double that is never wrapped. The model keeps
    it as an exact `real`. `State` makes explicit the truncation and
    reduction modulo 2^32 that every bit operation applies to it. The mixing
    is done on `bv32`, whose wrapping `*` is `Math.imul`.
- `Text` (`text.dfy`) covers three JavaScript operations:
  - rendering an integer in a template literal;
  - `match(/\d+/g)`, the maximal runs of digits;
  - `parseInt` on such a run.
- `Samplers` (`samplers.dfy`) models each sampler twice:
  - as a function of the values it draws (`HexFromDraws`, `RgbFromDraws`,
    `HslFromDraws`, `ColorFromDraws`);
  - as a method that draws from a `Stream`, proved to compute that function
    of exactly the values it drew.

  Colours are the datatype `Color`. The CSS string the source returns is
  `Render(c)`.
- `Generators` (`generators.dfy`) holds the gradient and the colour family.
  - It includes JavaScript's truncating `% 360` (`HueRemainder`) and the
    percentage clamp (`ClampPercent`).
  - A family member in a format other than hsl is `convertColor(string,
    format)`. That is a call into the tinycolor2 library, kept abstract as
    `Converted(input, format)`.

An unseeded stream (`Math.random`) yields values about which the model
assumes only that they lie in [0, 1). With a truthy seed, every method's
contract ties its result to `Draws(seed, ...)`. That makes the colour a
function of the options.

## Model

| member | source | states |
|---|---|---|
| `Mulberry32.Trunc` | src/index.js:11-12 | ECMAScript truncation toward zero: the result is the integer between 0 and `x` that is less than 1 away from `x` |
| `Mulberry32.State` | src/index.js:11-12 | the 32-bit state read from the unwrapped counter is below 2^32 |
| `Mulberry32.MixState` | src/index.js:12-14 | the mixed word, read unsigned after `>>> 0`, is below 2^32; the mixing itself is `Mix`, the three lines written operator for operator on `bv32` |
| `Mulberry32.Output` | src/index.js:14 | a draw lies in [0, 1), and multiplying it by 2^32 gives back exactly the 32-bit word that was mixed |
| `Mulberry32.Draws` | src/index.js:9-16 | the first `n` outputs of `mulberry32(seed)`: exactly `n` values, all in [0, 1) |
| `Mulberry32.DrawsExtend` | src/index.js:10-11 | drawing `k` more values keeps the first `n`; the new ones are the stream restarted from the counter after `n` additions |
| `Mulberry32.DrawsCommonPrefix` | src/index.js:10-15 | two runs of the same stream agree on every draw both made |
| `Mulberry32.CongruentSeedsAgree` | src/index.js:11-13 | integer seeds congruent modulo 2^32 give identical streams, although the counter itself is never wrapped |
| `Mulberry32.IntegerState` | src/index.js:11-12 | an integer counter's 32-bit state is that integer modulo 2^32 (Euclidean, so also for negative seeds) |
| `Mulberry32.StateAdvance` | src/index.js:11 | on an integer counter, each draw advances the 32-bit state by 0x6D2B79F5 modulo 2^32 |
| `Mulberry32.FractionalSeedActsAsZero` | src/index.js:11-13 | every seed strictly between 0 and 1 gives the same stream as seed 0 |
| `Mulberry32.Stream.Seeded` | src/index.js:9-10 | a new `mulberry32` closure: valid, seeded, with its counter at the seed and nothing drawn |
| `Mulberry32.Stream.Ambient` | src/index.js:47 | the ambient `Math.random`: valid, unseeded, nothing drawn |
| `Mulberry32.Stream.Next` | src/index.js:10-15 | one call of `random()`: the value lies in [0, 1) and is appended to the drawn values; when seeded, the counter grows by 0x6D2B79F5 and the value is `Output` of the new counter, so the drawn values stay `Draws(seed, n)` |
| `Mulberry32.StreamFor` | src/index.js:47 | `seed ? mulberry32(seed) : Math.random`: seeded exactly when the seed is a non-zero number, and then from that seed |
| `Text.DigitChar` | src/index.js:42 | the digit character whose code is `d` above `'0'` |
| `Text.Decimal` | src/index.js:42 | the decimal rendering of a non-negative integer is non-empty, all digits, and has no leading zero |
| `Text.Show` | src/index.js:95 | `${n}`: digits for non-negative `n`, and a minus sign followed by digits for negative `n` |
| `Text.ShowParses` | src/index.js:95 | `parseInt` reads `${n}` back as `n` for non-negative `n`, and the digits after the minus sign as `-n` for negative `n` |
| `Text.ParseDecimalOfDecimal` | src/index.js:86 | `parseInt` reads back exactly the integer that was rendered |
| `Text.LeadingDigits` | src/index.js:80 | the length of the leading run of digits: all digits, and followed by a non-digit or the end |
| `Text.DigitRuns` | src/index.js:80 | `match(/\d+/g)` returns only non-empty runs of digits |
| `Text.DigitRunsSkip` | src/index.js:80 | characters that are not digits contribute no match |
| `Text.DigitRunsTake` | src/index.js:80 | a run of digits followed by a non-digit or the end is a single match |
| `Text.RunThenSeparator` | src/index.js:80 | a run of digits followed by a separator without digits gives that run as one match and nothing for the separator |
| `Text.ThreeRuns` | src/index.js:80 | three runs of digits between separators without digits, after a head without digits, are the first three matches, in order |
| `Text.ThreeNumbers` | src/index.js:80 | three rendered non-negative integers between such separators are the first three matches, and `parseInt` reads each back |
| `Text.LeadingDigitsOf` | src/index.js:80 | the leading run of `d + s` is exactly `d` when `d` is all digits and `s` starts with a non-digit |
| `Samplers.FixedTwo` | src/index.js:41 | `toFixed(2)` of a number of hundredths: four characters with a point at index 1, whose digits parse back to that number |
| `Samplers.RandomNumberBounds` | src/index.js:18-20 | a sample lies in [min, max] when min <= max, and in (max, min] when the bounds are swapped |
| `Samplers.RandomNumberOfWord` | src/index.js:19 | on a seeded draw `u / 2^32`, the sample is the integer `u * (max - min + 1) / 2^32 + min` |
| `Samplers.HexDigit` | src/index.js:24 | `Math.floor(random() * 16)` is the sample in [0, 15] |
| `Samplers.Alpha` | src/index.js:32 | `toFixed(2)` picks the hundredth nearest to the draw, the larger on a tie |
| `Samplers.HexFromDraws` | src/index.js:22-25 | a hex colour is `#` and six characters of `0123456789ABCDEF`; digit `i` is the sample in [0, 15] from draw `i` |
| `Samplers.RgbFromDraws` | src/index.js:27-34 | red, green and blue are the samples in [min, max] of draws 0, 1 and 2 (in range for ordered bounds); an alpha is present exactly when asked for, and is then `toFixed(2)` of draw 3 |
| `Samplers.HslFromDraws` | src/index.js:36-43 | hue is the sample in [0, 360] of draw 0, saturation and lightness the samples in [0, 100] of draws 1 and 2, whatever min and max are; an alpha is present exactly when asked for, and is then `toFixed(2)` of draw 3 |
| `Samplers.RgbShape` | src/index.js:31-33 | `Render` of an rgb colour starts with `rgb(`, or `rgba(` when it has an alpha, and ends with `)` |
| `Samplers.HslShape` | src/index.js:40-42 | `Render` of an hsl colour starts with `hsl(`, or `hsla(` when it has an alpha, and ends with `)` |
| `Samplers.RgbDigitRuns` | src/index.js:31-33 | the first three runs of digits in `Render` of an rgb(a) colour with non-negative channels parse back to red, green and blue |
| `Samplers.ColorFromDraws` | src/index.js:49-56 | the format switch: rgb and hsl give their samplers' shapes, and every other format gives a six-digit hex colour |
| `Samplers.GenerateRandomNumber` | src/index.js:18-20 | consumes exactly one draw and returns the sample of that draw |
| `Samplers.GenerateRandomHexColor` | src/index.js:22-25 | consumes exactly six draws, one per digit in order, and returns `HexFromDraws` of them |
| `Samplers.GenerateRandomRGBColor` | src/index.js:27-34 | consumes three draws, or four with alpha, and returns `RgbFromDraws` of them |
| `Samplers.GenerateRandomHSLColor` | src/index.js:36-43 | consumes three draws, or four with alpha, and returns `HslFromDraws` of them |
| `Samplers.GenerateRandomColor` | src/index.js:45-57 | the colour has its format's shape (rgb and hsl channel ranges and alpha presence, six hex digits otherwise) and is `ColorFromDraws` of the values drawn; with a truthy seed those are the first draws of `mulberry32(seed)`, so the result depends only on the options |
| `Generators.HueRemainder` | src/index.js:86 | JavaScript's `% 360`: the result is in (-360, 360), has the sign of the operand, and differs from it by a multiple of 360 |
| `Generators.HueRemainderVersusEuclidean` | src/index.js:86 | the truncating remainder equals the Euclidean one when it is non-negative, is 360 less otherwise, and leaves [0, 360) unchanged |
| `Generators.ClampPercent` | src/index.js:87-94 | `Math.max(0, Math.min(100, x))` lies in [0, 100], equals `x` inside that range, and is 0 below it and 100 above it |
| `Generators.DeriveMember` | src/index.js:86-95 | a derived member is an hsl colour without alpha; saturation and lightness lie in [0, 100] and hue in (-360, 360) |
| `Generators.DerivedHue` | src/index.js:86 | the hue delta lies in [-hueRange, hueRange], or in (hueRange, -hueRange] for a negative range; the new hue has the sign of `hue + delta` and equals it when it is in [0, 360); a negative sum gives a non-positive hue, which when negative is 360 below the Euclidean remainder |
| `Generators.AnchorDigitRuns` | src/index.js:79-80 | matching `/\d+/g` on the rendered anchor, with or without alpha, finds at least three runs; they parse back to its hue, saturation and lightness |
| `Generators.SampleAnchor` | src/index.js:79-80 | the anchor is the hsl(a) sample of the first three (or four) draws from the seed; the hue, saturation and lightness parsed back from its rendered string are exactly the anchor's own |
| `Generators.GenerateFamilyMember` | src/index.js:85-97 | one `Array.from` callback: consumes exactly three draws and returns `Present` of the member they derive |
| `Generators.TriplesExtend` | src/index.js:85-97 | three more draws add one derived member at the end and leave the earlier members as they were |
| `Generators.DeriveMembers` | src/index.js:81-97 | `count - 1` derived members from a fresh stream; member `i` is derived from draws `3i` to `3i+2`; with a truthy seed those are the first draws of `mulberry32(seed)` |
| `Generators.GenerateRandomColorFamily` | src/index.js:67-99 | element 0 is the rendered hsl(a) anchor, whatever the format; every later element perturbs the anchor's own hue, saturation and lightness; with a truthy seed the perturbation stream restarts from the same seed, so the first member reuses the anchor's first three draws |
| `Generators.GenerateRandomGradientColors` | src/index.js:59-65 | `Length(count)` elements, that is `max(count, 0)`; element `i` is seeded with the `i`-th outer draw; every element whose draw is non-zero is the seed-0 colour, seeded or not |
| `Generators.AsWrittenElementsAgree` | src/index.js:63 | any two gradient elements whose outer draws are non-zero are the same colour |
| `Generators.ElementWord` | src/index.js:63 | the 32-bit word behind a draw lies in [0, 2^32) |
| `Generators.GenerateGradientWordSeeded` | src/index.js:59-65 | the corrected gradient: element `i` draws from `mulberry32` seeded with the 32-bit word of the `i`-th outer draw, and with a truthy seed that word is the one the outer stream mixed |
| `Generators.ElementWordsOfDraws` | src/index.js:14 | each element word of a seeded outer stream is exactly the word the outer stream mixed for that draw |
| `Generators.DistinctWordsDistinctStates` | src/index.js:11 | streams seeded with distinct 32-bit words never share a 32-bit state at the same step |

## Left out

- `generateColorScheme` (src/index.js:101-106) and `ensureColorContrast`
  (src/index.js:108-121) are not part of this model. They are thin calls into
  the color-scheme, color and wcag-contrast libraries.
- `convertColor`, `adjustColor`, `getColorName` and the other library
  wrappers (src/index.js:123-146) are not part of this model either. Where the
  family calls `convertColor`, its output is kept abstract as
  `Converted(input, format)`.
- `Math.random` is an external source. The model assumes only that each of
  its values lies in [0, 1).
- Option defaults (src/index.js:46, 60, 68-78) are not modelled: every
  option is an explicit parameter.
- Only `null` and numbers are modelled as seeds. Other values are not: a
  string, an object, `NaN` and `undefined` passed in some other way.
- Options are mathematical integers. Non-integer or non-finite `min`, `max`,
  `count` and ranges are not modelled, and neither is `Array.from`'s
  truncation of a non-integer length.
- Arithmetic is exact, not double-precision. The model therefore does not
  capture:
  - a counter of magnitude 2^53 or more. A seed that large starts there.
    From a smaller seed it takes about (2^53 - seed) / 0x6D2B79F5 draws,
    about five million from a seed near 0;
  - rounding of `random() * (max - min + 1)`. A seeded draw is `u / 2^32`,
    so the product is exact unless the range is wider than about 2^21.
    A `Math.random` value has up to 53 significant bits, and the product can
    round up to the next integer even for the narrow ranges the source uses.
    For example, x = 523964499583271 * 2^-52 gives x * 361 = 42 - 2^-52,
    which rounds to 42.0, so the hue sampler returns 42 where
    `RandomNumber(0, 360, x)` is 41. For an unseeded stream, the values
    the model records as drawn are therefore some values in [0, 1) that
    give the same samples, not necessarily the values `Math.random`
    returned;
  - the rounding of a fractional counter. Each addition of 0x6D2B79F5
    rounds the counter to a double. The spacing of doubles there is 2^-22
    after the first draw and grows to 2^-19 by the sixth. A fractional part
    within about 2^-23 of 1 at the first addition, or about 2^-20 by the
    fifth, is rounded up into the integer part. From that draw on, the
    stream follows the counter rounded up, not truncated. For example, a
    seed of 1 - 2^-21 gives draws 1 and 2 of seed 0, then draws 3 to 6 of
    seed 1.
- The samplers return the structured `Color`. The CSS string is `Render` of
  it and is not a separate result. `Render` has no contract of its own: its
  shape is stated by `RgbShape`, `HslShape` and `HexFromDraws`, and the
  numbers in it are read back by `RgbDigitRuns` and `AnchorDigitRuns`.
- `Mix` has no contract of its own. No property of this xor, shift and
  multiply chain on `bv32` is cheap enough for the verifier to check.
  `MixState` and `Output` state what the rest of the model relies on:
  the word is below 2^32 and the draw is that word over 2^32.
- A `match` that returns `null` is not modelled: `AnchorDigitRuns` proves
  that the rendered anchor always has three runs of digits.
- Generator outputs are not computed for concrete seeds. The properties are
  proved for all inputs instead.

## Findings

| source | as written | input that shows it | evidently intended | confidence | as-written member | corrected member |
|---|---|---|---|---|---|---|
| src/index.js:61-63 | each gradient element is seeded with `random()`, a fraction in [0, 1); `mulberry32` truncates its counter on every use, so the fraction is lost and every element with a non-zero draw is the colour of `mulberry32(0)` | `generateRandomGradientColors()` (hex, count 2, no seed): both elements are the same colour, and so is every later call, unless `Math.random` returns exactly 0 or a value within about 2^-20 of 1 | each element drawn from its own stream, for instance seeded with the 32-bit word `Math.floor(random() * 2 ** 32)` | not executed | `Generators.GenerateRandomGradientColors` | `Generators.GenerateGradientWordSeeded` |
