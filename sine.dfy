/** The sine table (scripts/gentables.py, lines 18-19). Sample i is
    `int(math.sin((2 * math.pi * i) / num_samples) * (max_ampl / 2) + max_ampl / 2)`.
    `math.sin` is not modelled: it is a parameter `sine`. Every member assumes
    its range [-1, 1]; `SineStartsAtMid` and `SineTableStartsAtMid` also assume
    it is 0 at 0, and `SineExample` assumes its values at the four phases it
    uses. The arithmetic around it is on exact reals. */
module Sine {
  import opened TableParams
  import opened Quantize

  /** The decimal Python prints for the double `math.pi`. */
  const Pi: real := 3.141592653589793

  /** The range of `math.sin`, [-1, 1], assumed by every member that uses the
      sine; the lemmas that need particular values (at 0, or at the four
      phases of `SineExample`) state them as further hypotheses. */
  ghost predicate SineBounded(sine: real -> real)
  {
    forall x :: -1.0 <= sine(x) <= 1.0
  }

  /** `(2 * math.pi * i) / num_samples`: the indices of `range(num_samples)`
      cover one period [0, 2 pi), index 0 at angle 0. */
  function Angle(n: nat, i: nat): (a: real)
    requires 0 < n
    ensures 0.0 <= a
    ensures i == 0 <==> a == 0.0
    ensures i < n ==> a < 2.0 * Pi
  {
    assert i < n ==> (2.0 * Pi * i as real) / n as real < 2.0 * Pi by {
      if i < n {
        assert 2.0 * Pi * i as real < 2.0 * Pi * n as real;
      }
    }
    (2.0 * Pi * i as real) / n as real
  }

  /** `math.sin(angle) * (max_ampl / 2) + max_ampl / 2`, the float that a sine
      sample truncates: with a sine inside [-1, 1] it lies in [0, max_ampl]. */
  function SineFloat(n: nat, m: nat, sine: real -> real, i: nat): (x: real)
    requires 0 < n
    ensures SineBounded(sine) ==> 0.0 <= x <= m as real
  {
    var s, half := sine(Angle(n, i)), m as real / 2.0;
    assert SineBounded(sine) ==> 0.0 <= s * half + half <= m as real by {
      if SineBounded(sine) {
        assert -1.0 <= s <= 1.0;
        assert (s + 1.0) * half >= 0.0;
        assert (1.0 - s) * half >= 0.0;
      }
    }
    s * half + half
  }

  /** Sample i of the sine table: `int()` of the float above. With a sine
      inside [-1, 1] it never leaves [0, max_ampl]. */
  function SineSample(n: nat, m: nat, sine: real -> real, i: nat): (v: nat)
    requires 0 < n && SineBounded(sine)
    ensures v <= m
  {
    Trunc(SineFloat(n, m, sine, i))
  }

  /** The sine table: one sample per phase index, num_samples of them, in
      index order, each in [0, max_ampl]. */
  function SineTable(p: Params, sine: real -> real): (t: seq<nat>)
    requires SineBounded(sine)
    ensures |t| == NumSamples(p)
    ensures forall k :: 0 <= k < |t| ==> t[k] <= MaxAmpl(p)
  {
    SineSamples(NumSamples(p), MaxAmpl(p), sine)
  }

  /** The sine table for n samples of amplitude up to m. */
  function SineSamples(n: nat, m: nat, sine: real -> real): (t: seq<nat>)
    requires 0 < n && SineBounded(sine)
    ensures |t| == n
    ensures forall k :: 0 <= k < |t| ==> t[k] <= m
  {
    seq(n, i requires 0 <= i < n => SineSample(n, m, sine, i))
  }

  /** Phase 0: sin 0 = 0, so the first sample is mid-scale, max_ampl div 2. */
  lemma SineStartsAtMid(n: nat, m: nat, sine: real -> real)
    requires 0 < n && SineBounded(sine) && sine(0.0) == 0.0
    ensures SineSample(n, m, sine, 0) == m / 2
  {
    assert Angle(n, 0) == 0.0;
    assert SineFloat(n, m, sine, 0) == m as real / 2 as real;
    TruncOfQuotient(m, 2);
  }

  /** The first line of every sine table is mid-scale. */
  lemma SineTableStartsAtMid(p: Params, sine: real -> real)
    requires SineBounded(sine) && sine(0.0) == 0.0
    ensures SineTable(p, sine)[0] == MaxAmpl(p) / 2
  {
    SineStartsAtMid(NumSamples(p), MaxAmpl(p), sine);
  }

  /** phase_bits = 2, wf_bits = 4, with the values `math.sin` gives at the four
      phases (0, 1, a tiny positive number at pi, -1): the table is 7, 15, 7, 0. */
  lemma SineExample(sine: real -> real)
    requires SineBounded(sine)
    requires sine(0.0) == 0.0 && sine(Pi / 2.0) == 1.0
    requires 0.0 <= sine(Pi) < 1.0 / 15.0 && sine(3.0 * Pi / 2.0) == -1.0
    ensures SineTable(Params(2, 4), sine) == [7, 15, 7, 0]
  {
    var p := Params(2, 4);
    assert Pow2(2) == 4 && Pow2(4) == 16;
    var n, m := NumSamples(p), MaxAmpl(p);
    assert n == 4 && m == 15;
    var t := SineTable(p, sine);
    SineStartsAtMid(4, 15, sine);
    assert Angle(4, 1) == Pi / 2.0;
    assert Angle(4, 2) == Pi;
    assert Angle(4, 3) == 3.0 * Pi / 2.0;
    assert SineFloat(4, 15, sine, 1) == 15.0;
    assert 7.5 <= SineFloat(4, 15, sine, 2) < 8.0;
    assert SineFloat(4, 15, sine, 3) == 0.0;
    assert t == [t[0], t[1], t[2], t[3]];
  }
}
