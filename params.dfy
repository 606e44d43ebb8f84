/** The two widths of one generation run and the constants derived from them
    (scripts/gentables.py, lines 9-13). */
module TableParams {

  /** 2^k, the value of Python's `2**k` for a non-negative exponent. */
  function Pow2(k: nat): (r: nat)
    ensures r >= 1
  {
    if k == 0 then 1 else 2 * Pow2(k - 1)
  }

  lemma {:induction false} Pow2Add(a: nat, b: nat)
    ensures Pow2(a + b) == Pow2(a) * Pow2(b)
  {
    if a > 0 {
      var x, y := Pow2(a - 1), Pow2(b);
      assert Pow2(a - 1 + b) == x * y by {
        Pow2Add(a - 1, b);
      }
      assert Pow2(a + b) == 2 * Pow2(a - 1 + b);
      assert 2 * (x * y) == (2 * x) * y;
    }
  }

  /** A wider exponent gives a strictly larger power. */
  lemma {:induction false} Pow2StrictlyIncreasing(a: nat, b: nat)
    requires a < b
    ensures Pow2(a) < Pow2(b)
  {
    if a + 1 < b {
      Pow2StrictlyIncreasing(a, b - 1);
    }
  }

  /** The phase-index width and the sample width, as given on the command line. */
  datatype Params = Params(phaseBits: nat, wfBits: nat)

  /** `num_samples = 2**phase_bits`: a power of two, hence a multiple of 4
      as soon as the phase index has two bits. */
  function NumSamples(p: Params): (n: nat)
    ensures n >= 1
    ensures p.phaseBits >= 2 ==> n % 4 == 0
    ensures p.phaseBits == 1 ==> n == 2
    ensures p.phaseBits == 0 ==> n == 1
  {
    var k := p.phaseBits;
    if k >= 2 then
      var quarter := Pow2(k - 2);
      assert Pow2(k) == 4 * quarter by {
        assert Pow2(k) == 2 * Pow2(k - 1);
        assert Pow2(k - 1) == 2 * quarter;
      }
      assert (4 * quarter) % 4 == 0;
      Pow2(k)
    else if k == 1 then
      assert Pow2(1) == 2 * Pow2(0);
      Pow2(k)
    else
      Pow2(k)
  }

  /** `max_ampl = 2**wf_bits - 1`: the largest unsigned value of wf_bits bits. */
  function MaxAmpl(p: Params): (m: nat)
    ensures m < Pow2(p.wfBits) <= m + 1
  {
    Pow2(p.wfBits) - 1
  }

  /** `int(wf_bits/4)`: the zero-padding width of each line, the quotient of
      wf_bits by 4 with the remainder dropped. */
  function HexWidth(p: Params): (w: nat)
    ensures 4 * w <= p.wfBits < 4 * w + 4
  {
    p.wfBits / 4
  }
}
