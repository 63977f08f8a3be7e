/** The Mulberry32 generator of src/index.js and the stream object that the
    samplers draw from.

    The JavaScript closure keeps its counter `seed` as a double that is never
    wrapped: every draw adds 0x6D2B79F5 to it, and the bit operations that
    read it convert it with ToInt32/ToUint32, i.e. truncate it toward zero and
    take it modulo 2^32. The model keeps the counter as an exact `real` and
    makes that conversion explicit (`State`); the mixing itself is done on
    `bv32`, whose `+` and `*` wrap exactly as `Math.imul` and the 32-bit
    xor/shift operators do. */
module Mulberry32 {

  /** The constant added to the counter on every draw. */
  const Increment: int := 0x6D2B79F5

  /** 2^32, the divisor that turns a 32-bit word into a draw in [0,1). */
  const TwoTo32: int := 0x1_0000_0000

  /** The seed option: absent (`null`/`undefined`) or a JavaScript number. */
  datatype Seed = Null | Num(value: real) {
    /** `seed ? mulberry32(seed) : Math.random`: only a non-zero number is truthy. */
    predicate Truthy() {
      Num? && value != 0.0
    }
  }

  /** ECMAScript's truncation of a number toward zero. */
  function Trunc(x: real): (n: int)
    ensures x >= 0.0 ==> n as real <= x < n as real + 1.0
    ensures x < 0.0 ==> n as real - 1.0 < x <= n as real
  {
    if x >= 0.0 then x.Floor else -((-x).Floor)
  }

  /** ECMAScript's ToUint32 of the counter (as a bit pattern also its ToInt32):
      the 32-bit state the mixing starts from. */
  function State(counter: real): (t: nat)
    ensures t < TwoTo32
  {
    Trunc(counter) % TwoTo32
  }

  /** The output mixing of one draw, applied to the freshly advanced counter:
      two xor-shift/multiply rounds and a final xor-shift. */
  function Mix(t: bv32): bv32 {
    var a := (t ^ (t >> 15)) * (t | 1);
    var b := a ^ (a + (a ^ (a >> 7)) * (a | 61));
    b ^ (b >> 14)
  }

  /** `Mix` on the 32-bit state read as an unsigned integer, which is what the
      final `>>> 0` returns. */
  function MixState(t: nat): (u: nat)
    requires t < TwoTo32
    ensures u < TwoTo32
  {
    Mix(t as bv32) as int
  }

  /** The 32-bit word `u` a draw produces when the advanced counter is `counter`. */
  function Word(counter: real): (u: nat)
    ensures u < TwoTo32
  {
    MixState(State(counter))
  }

  /** The value a draw returns: `u / 4294967296`. */
  function Output(counter: real): (x: real)
    ensures 0.0 <= x < 1.0
    ensures x * TwoTo32 as real == Word(counter) as real
  {
    Word(counter) as real / TwoTo32 as real
  }

  /** Every element of `xs` is a possible draw, i.e. lies in [0,1). */
  ghost predicate InUnit(xs: seq<real>) {
    forall i :: 0 <= i < |xs| ==> 0.0 <= xs[i] < 1.0
  }

  /** The closure's counter after `k` draws from `mulberry32(seed)`. */
  function Counter(seed: real, k: nat): real {
    seed + k as real * Increment as real
  }

  /** The first `n` draws of the stream `mulberry32(seed)`: draw `i` mixes the
      counter as it stands after the `(i+1)`-th addition. */
  function Draws(seed: real, n: nat): (xs: seq<real>)
    ensures |xs| == n
    ensures InUnit(xs)
  {
    seq(n, i requires 0 <= i < n => Output(Counter(seed, i + 1)))
  }

  /** Drawing `k` more values continues the sequence of the first `n`. */
  lemma DrawsExtend(seed: real, n: nat, k: nat)
    ensures Draws(seed, n + k)[..n] == Draws(seed, n)
    ensures Draws(seed, n + k)[n..] == Draws(Counter(seed, n), k)
  {
    var all, head, tail := Draws(seed, n + k), Draws(seed, n), Draws(Counter(seed, n), k);
    assert all[..n] == head;
    forall i | 0 <= i < k ensures all[n + i] == tail[i] {
      assert Counter(seed, n + i + 1) == Counter(Counter(seed, n), i + 1);
    }
    assert all[n..] == tail;
  }

  /** Two runs of the same stream agree on the draws they both made. */
  lemma DrawsCommonPrefix(seed: real, m: nat, n: nat, k: nat)
    requires k <= m && k <= n
    ensures Draws(seed, m)[..k] == Draws(seed, n)[..k]
  {
    DrawsExtend(seed, k, m - k);
    DrawsExtend(seed, k, n - k);
  }

  /** Integer seeds that agree modulo 2^32 give the same stream: the counter is
      never wrapped, but every use of it is. */
  lemma CongruentSeedsAgree(a: int, b: int, n: nat)
    requires a % TwoTo32 == b % TwoTo32
    ensures Draws(a as real, n) == Draws(b as real, n)
  {
    var xs, ys := Draws(a as real, n), Draws(b as real, n);
    forall i | 0 <= i < n ensures xs[i] == ys[i] {
      var k := (i + 1) * Increment;
      assert Counter(a as real, i + 1) == (a + k) as real;
      assert Counter(b as real, i + 1) == (b + k) as real;
      ModShift(a, b, k);
      IntegerState(a + k);
      IntegerState(b + k);
      SameStateSameOutput((a + k) as real, (b + k) as real);
    }
    assert xs == ys;
  }

  /** Counters with the same 32-bit state produce the same draw. */
  lemma SameStateSameOutput(c: real, d: real)
    requires State(c) == State(d)
    ensures Output(c) == Output(d)
  {
  }

  /** The state of an integer counter is that integer modulo 2^32. */
  lemma IntegerState(c: int)
    ensures State(c as real) == c % TwoTo32
  {
    assert (c as real).Floor == c;
    if c < 0 {
      assert (-(c as real)).Floor == -c;
    }
  }

  lemma ModShift(a: int, b: int, c: int)
    requires a % TwoTo32 == b % TwoTo32
    ensures (a + c) % TwoTo32 == (b + c) % TwoTo32
  {
    var qa, qb := a / TwoTo32, b / TwoTo32;
    assert a == qa * TwoTo32 + a % TwoTo32;
    assert b == qb * TwoTo32 + b % TwoTo32;
    assert a - b == (qa - qb) * TwoTo32;
    var d := qa - qb;
    assert (a + c) == (b + c) + d * TwoTo32;
    ModMultiple(b + c, d);
  }

  lemma ModMultiple(x: int, d: int)
    ensures (x + d * TwoTo32) % TwoTo32 == x % TwoTo32
  {
    var q, r := x / TwoTo32, x % TwoTo32;
    assert x + d * TwoTo32 == (q + d) * TwoTo32 + r;
  }

  /** On an integer counter, each draw advances the 32-bit state by exactly
      0x6D2B79F5 modulo 2^32. */
  lemma StateAdvance(c: int)
    ensures State((c + Increment) as real) == (State(c as real) + Increment) % TwoTo32
  {
    assert Trunc((c + Increment) as real) == c + Increment;
    assert Trunc(c as real) == c;
    assert (c % TwoTo32) % TwoTo32 == c % TwoTo32;
    ModShift(c, c % TwoTo32, Increment);
  }

  /** A fractional seed in (0,1) is truncated away on every use, so it gives
      the same stream as the integer seed 0. */
  lemma FractionalSeedActsAsZero(f: real, n: nat)
    requires 0.0 < f < 1.0
    ensures Draws(f, n) == Draws(0.0, n)
  {
    var xs, ys := Draws(f, n), Draws(0.0, n);
    forall i | 0 <= i < n ensures xs[i] == ys[i] {
      var k := (i + 1) * Increment;
      assert Counter(f, i + 1) == f + k as real;
      assert Counter(0.0, i + 1) == k as real;
      TruncDropsFraction(f, k);
      SameStateSameOutput(f + k as real, k as real);
    }
    assert xs == ys;
  }

  lemma TruncDropsFraction(f: real, k: nat)
    requires 0.0 <= f < 1.0
    ensures Trunc(f + k as real) == k
    ensures State(f + k as real) == State(k as real)
  {
    assert (f + k as real).Floor == k;
    assert (k as real).Floor == k;
  }

  /** The state of `mulberry32(seed)` or of the ambient `Math.random`, as held
      by the variable `random` in src/index.js. */
  class Stream {
    /** true for a `mulberry32` closure, false for the ambient `Math.random`. */
    var seeded: bool
    /** The closure's captured counter `seed`, never wrapped. */
    var counter: real
    /** The seed the stream was built from. */
    ghost var origin: real
    /** Every value drawn so far, in order. */
    ghost var drawn: seq<real>

    ghost predicate Valid()
      reads this
    {
      InUnit(drawn) &&
      (seeded ==> counter == Counter(origin, |drawn|) &&
                  drawn == Draws(origin, |drawn|))
    }

    /** `mulberry32(seed)`. */
    constructor Seeded(seed: real)
      ensures Valid() && seeded && origin == seed && counter == seed && drawn == []
    {
      seeded, counter := true, seed;
      origin, drawn := seed, [];
    }

    /** `Math.random`, a source the model does not look into. */
    constructor Ambient()
      ensures Valid() && !seeded && drawn == []
    {
      seeded, counter := false, 0.0;
      origin, drawn := 0.0, [];
    }

    /** One call of `random()`. */
    method Next() returns (x: real)
      requires Valid()
      modifies this
      ensures Valid() && seeded == old(seeded) && origin == old(origin)
      ensures 0.0 <= x < 1.0 && drawn == old(drawn) + [x]
      ensures seeded ==> counter == old(counter) + Increment as real && x == Output(counter)
    {
      if seeded {
        counter := counter + Increment as real;
        x := Output(counter);
        assert Counter(origin, |drawn| + 1) == counter;
        DrawsExtend(origin, |drawn|, 1);
        assert Draws(origin, |drawn| + 1)[|drawn|] == x;
      } else {
        x :| 0.0 <= x < 1.0;
      }
      drawn := drawn + [x];
    }

    /** This call drew exactly `k` more values and kept the same source. */
    twostate predicate Advanced(k: nat)
      reads this
    {
      Valid() && seeded == old(seeded) && origin == old(origin) &&
      |drawn| == |old(drawn)| + k && drawn[..|old(drawn)|] == old(drawn)
    }

    /** The values drawn by this call. */
    twostate function NewDraws(): seq<real>
      reads this
      requires |old(drawn)| <= |drawn|
    {
      drawn[|old(drawn)|..]
    }
  }

  /** `seed ? mulberry32(seed) : Math.random`. */
  method StreamFor(seed: Seed) returns (s: Stream)
    ensures fresh(s) && s.Valid() && s.drawn == []
    ensures s.seeded == seed.Truthy()
    ensures s.seeded ==> s.origin == seed.value
  {
    if seed.Truthy() {
      s := new Stream.Seeded(seed.value);
    } else {
      s := new Stream.Ambient();
    }
  }
}
